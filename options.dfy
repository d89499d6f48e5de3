/**
 * Command-line configuration (src/get_opt_parser.c): `parse_opts` sets the
 * bus defaults, then applies the options `getopt_long` delivers one by one,
 * each option a `switch` of read-modify-write edits on one register image;
 * `__isNumber` and `__check_digit_opt` vet numeric arguments.
 */
module Options {
  import opened Common
  import opened Registers
  import opened Transport
  import opened Protocol
  import opened Max30003

  /** The status `exit` receives from `print_usage`. */
  const EXIT_FAILURE: int := 1

  /** One option as `getopt_long` hands it over: its character and `optarg` (`None` for a null pointer). */
  datatype Opt = Opt(name: char, arg: Option<string>)

  /** `isdigit`: a decimal digit. */
  predicate IsDigit(c: char)
  {
    '0' <= c <= '9'
  }

  /** Every character is a decimal digit (so the empty string qualifies). */
  predicate AllDigits(s: string)
  {
    forall i | 0 <= i < |s| :: IsDigit(s[i])
  }

  /**
   * `__isNumber`: scan up to the terminator and report 0 at the first
   * non-digit, 1 when there is none.
   */
  method IsNumber(s: string) returns (r: bv8)
    ensures r == 1 <==> AllDigits(s)
    ensures r == 0 <==> !AllDigits(s)
  {
    var i := 0;
    while i < |s|
      invariant 0 <= i <= |s|
      invariant forall j | 0 <= j < i :: IsDigit(s[j])
    {
      if !IsDigit(s[i]) {
        return 0;
      }
      i := i + 1;
    }
    return 1;
  }

  /**
   * `__check_digit_opt`: a null `optarg` gives `RET_CODE_NULL_PTR`, one
   * that is not all digits `RET_CODE_INVALID_PARAMS`, anything else
   * `RET_CODE_SUCCESS`.
   */
  method CheckDigitOpt(arg: Option<string>) returns (ret: RetCode)
    ensures ret == NullPtr <==> arg.None?
    ensures ret == InvalidParams <==> arg.Some? && !AllDigits(arg.value)
    ensures ret == Success <==> arg.Some? && AllDigits(arg.value)
  {
    ret := Success;
    if arg.None? {
      return NullPtr;
    }
    var isNumber := IsNumber(arg.value);
    if isNumber == 0 {
      return InvalidParams;
    }
  }

  /** The value of a decimal digit. */
  function DigitValue(c: char): (d: nat)
    requires IsDigit(c)
    ensures d < 10
  {
    c as int - '0' as int
  }

  /** The number a string of decimal digits spells, most significant digit first. */
  function DecimalValue(s: string): nat
    requires AllDigits(s)
    decreases |s|
  {
    if s == [] then 0 else DecimalValue(s[..|s| - 1]) * 10 + DigitValue(s[|s| - 1])
  }

  /** `atoi` of an all-digit string stored into a `uint32_t`: the value modulo 2^32. */
  function AtoiU32(s: string): uint32
    requires AllDigits(s)
  {
    (DecimalValue(s) % 0x1_0000_0000) as uint32
  }

  /** One of the two read-modify-write macros a `case` issues, with its mask. */
  datatype MaskOp = SetBits(mask: bv32) | ClearBits(mask: bv32)

  /** An image after one macro. */
  function Apply(op: MaskOp, reg: bv32): bv32
  {
    match op
    case SetBits(m) => BitmaskSet(reg, m)
    case ClearBits(m) => BitmaskClear(reg, m)
  }

  /** An image after the macros `ops`, in order. */
  function ApplyOps(ops: seq<MaskOp>, reg: bv32): bv32
    decreases |ops|
  {
    if ops == [] then reg else ApplyOps(ops[1..], Apply(ops[0], reg))
  }

  /** Every macro in `ops` has its mask within `field`. */
  predicate OpsInside(ops: seq<MaskOp>, field: bv32)
  {
    forall k | 0 <= k < |ops| :: InField(ops[k].mask, field)
  }

  /** Two images agree on every bit outside `field`. */
  predicate SameOutside(a: bv32, b: bv32, field: bv32)
  {
    a & !field == b & !field
  }

  lemma SetInside(reg: bv32, m: bv32, field: bv32)
    requires InField(m, field)
    ensures SameOutside(BitmaskSet(reg, m), reg, field)
  {
  }

  lemma ClearInside(reg: bv32, m: bv32, field: bv32)
    requires InField(m, field)
    ensures SameOutside(BitmaskClear(reg, m), reg, field)
  {
  }

  /** A macro whose mask lies in `field` changes no bit outside it. */
  lemma ApplyInside(op: MaskOp, reg: bv32, field: bv32)
    requires InField(op.mask, field)
    ensures SameOutside(Apply(op, reg), reg, field)
  {
    match op
    case SetBits(m) => SetInside(reg, m, field);
    case ClearBits(m) => ClearInside(reg, m, field);
  }

  lemma SameOutsideTrans(a: bv32, b: bv32, c: bv32, field: bv32)
    requires SameOutside(a, b, field) && SameOutside(b, c, field)
    ensures SameOutside(a, c, field)
  {
  }

  lemma OpsInsideSplit(ops: seq<MaskOp>, field: bv32)
    requires OpsInside(ops, field) && ops != []
    ensures InField(ops[0].mask, field) && OpsInside(ops[1..], field)
  {
    forall k | 0 <= k < |ops[1..]| ensures InField(ops[1..][k].mask, field) {
      assert ops[1..][k] == ops[k + 1];
    }
  }

  /** Macros whose masks all lie in `field` leave every other bit of the image as it was. */
  lemma {:induction false} ApplyOpsStayInside(ops: seq<MaskOp>, reg: bv32, field: bv32)
    requires OpsInside(ops, field)
    ensures SameOutside(ApplyOps(ops, reg), reg, field)
    decreases |ops|
  {
    if ops != [] {
      OpsInsideSplit(ops, field);
      var next := Apply(ops[0], reg);
      ApplyInside(ops[0], reg, field);
      ApplyOpsStayInside(ops[1..], next, field);
      SameOutsideTrans(ApplyOps(ops, reg), next, reg, field);
    }
  }

  /** The `case` labels of the enable-style options. */
  const EN_VAL: uint32 := 1
  const DIS_VAL: uint32 := 2

  /**
   * The `switch` of the enable-style options (`E`, `u`, `l`, `P`, `B`, `c`,
   * `o`, `C`, `I`): 1 sets `on`, 2 clears the whole field, and any other
   * value sets `on` as 1 does.
   */
  function EnableOps(v: uint32, on: bv32, field: bv32): (ops: seq<MaskOp>)
    requires InField(on, field)
  {
    if v == EN_VAL then [SetBits(on)]
    else if v == DIS_VAL then [ClearBits(field)]
    else [SetBits(on)]
  }

  /** `-g`: ECG gain in CNFG_ECG bits 16-17. */
  function GainOps(v: uint32): (ops: seq<MaskOp>)
  {
    if v == 20 then [ClearBits(ECG_GAIN_20_RESET)]
    else if v == 40 then [SetBits(ECG_GAIN_40)]
    else if v == 80 then [SetBits(ECG_GAIN_80)]
    else if v == 160 then [SetBits(ECG_GAIN_160)]
    else [ClearBits(ECG_GAIN_20_RESET)]
  }

  /** `-S`: sample rate in CNFG_ECG bits 22-23. */
  function RateOps(v: uint32): (ops: seq<MaskOp>)
  {
    if v == 512 then [ClearBits(ECG_GAIN_512_RESET)]
    else if v == 128 then [SetBits(ECG_RATE_128)]
    else if v == 256 then [SetBits(ECG_RATE_256)]
    else [ClearBits(ECG_GAIN_512_RESET)]
  }

  /** `-H`: digital high-pass filter in CNFG_ECG bit 14; 2 selects 0.5 Hz, 1 bypasses. */
  function HighPassOps(v: uint32): (ops: seq<MaskOp>)
  {
    if v == 2 then [SetBits(DHPF_05_HZ)]
    else if v == 1 then [ClearBits(DHPF_BYPASS_RESET)]
    else [ClearBits(DHPF_BYPASS_RESET)]
  }

  /** `-e`: FIFO interrupt threshold in MNGR_INT bits 19-23. */
  function EfitOps(v: uint32): (ops: seq<MaskOp>)
  {
    if v == 16 then [SetBits(EFIT_16)]
    else if v == 2 then [SetBits(EFIT_2)]
    else if v == 1 then [ClearBits(EFIT_1_RESET)]
    else [ClearBits(EFIT_1_RESET)]
  }

  /** `-p`: RRINT clear behaviour in MNGR_INT bits 4-5. */
  function ClearPrintOps(v: uint32): (ops: seq<MaskOp>)
  {
    if v == 0 then [ClearBits(CLEAR_PRINT_ON_STATUS_RESET)]
    else if v == 1 then [SetBits(CLEAR_PRINT_ON_RTOR)]
    else if v == 2 then [SetBits(CLEAR_PRINT_ON_READ_CYCLE)]
    else [ClearBits(CLEAR_PRINT_ON_STATUS_RESET)]
  }

  /** `-a`: SAMP clear behaviour in MNGR_INT bit 2. */
  function SampClearOps(v: uint32): (ops: seq<MaskOp>)
  {
    if v == 1 then [SetBits(CLR_SAMP_AUTO)]
    else if v == 2 then [ClearBits(CLR_SAMP_ON_STATUS_RESET)]
    else [ClearBits(CLR_SAMP_ON_STATUS_RESET)]
  }

  /** `-f`: SAMP frequency in MNGR_INT bits 0-1. */
  function SampFreqOps(v: uint32): (ops: seq<MaskOp>)
  {
    if v == 1 then [ClearBits(SAMP_EVERY_SAMPLE_RESET)]
    else if v == 2 then [SetBits(SAMP_EVERY_SECOND)]
    else if v == 4 then [SetBits(SAMP_EVERY_FOURTH)]
    else if v == 16 then [SetBits(SAMP_EVERY_SIXTEENTH)]
    else [ClearBits(SAMP_EVERY_SAMPLE_RESET)]
  }

  /** `-m`: DC lead-off current in CNFG_GEN bits 8-10. */
  function LeadoffMagOps(v: uint32): (ops: seq<MaskOp>)
  {
    if v == 0 then [ClearBits(DCLOFF_CUR_DISABLE_RESET)]
    else if v == 5 then [SetBits(DCLOFF_CUR_5_N_A)]
    else if v == 10 then [SetBits(DCLOFF_CUR_10_N_A)]
    else if v == 20 then [SetBits(DCLOFF_CUR_20_N_A)]
    else if v == 50 then [SetBits(DCLOFF_CUR_50_N_A)]
    else if v == 100 then [SetBits(DCLOFF_CUR_100_N_A)]
    else [ClearBits(DCLOFF_CUR_DISABLE_RESET)]
  }

  /** `-v`: DC lead-off threshold in CNFG_GEN bits 6-7. */
  function LeadoffVolOps(v: uint32): (ops: seq<MaskOp>)
  {
    if v == 300 then [ClearBits(DCLOFF_VTH_300_M_V_RESET)]
    else if v == 400 then [SetBits(DCLOFF_VTH_400_M_V)]
    else if v == 450 then [SetBits(DCLOFF_VTH_450_M_V)]
    else if v == 500 then [SetBits(DCLOFF_VTH_500_M_V)]
    else [ClearBits(DCLOFF_VTH_300_M_V_RESET)]
  }

  /** `-r`: bias resistor in CNFG_GEN bits 2-3; an unknown value edits nothing. */
  function RbiasValOps(v: uint32): (ops: seq<MaskOp>)
  {
    if v == 50 then [ClearBits(RBIAS_SEL_50_M_OHM_RESET)]
    else if v == 100 then [SetBits(RBIAS_SEL_100_M_OHM)]
    else if v == 200 then [SetBits(RBIAS_SEL_200_M_OHM)]
    else []
  }

  /** `-i`: bias inputs in CNFG_GEN bits 0-1. */
  function RbiasInputOps(v: uint32): (ops: seq<MaskOp>)
  {
    if v == 0 then [ClearBits(RBIASN_NC_RESET)]
    else if v == 1 then [SetBits(RBIASN_CON)]
    else if v == 2 then [SetBits(RBIASP_CON)]
    else [ClearBits(RBIASN_NC_RESET)]
  }

  /**
   * The bits `-F` may change: the FCAL field (bits 12-14) and bits 16-18,
   * where the three slowest frequency codes land.
   */
  const FCAL_EDITED: bv32 := FCAL_256_HZ_RESET | FCAL_16_M_HZ

  /** `-F`: calibration frequency in CNFG_CAL. */
  function CalFreqOps(v: uint32): (ops: seq<MaskOp>)
  {
    if v == 256000 then [ClearBits(FCAL_256_HZ_RESET)]
    else if v == 64000 then [SetBits(FCAL_64_HZ)]
    else if v == 16000 then [SetBits(FCAL_16_HZ)]
    else if v == 4000 then [SetBits(FCAL_4_HZ)]
    else if v == 1000 then [SetBits(FCAL_1_HZ)]
    else if v == 250 then [SetBits(FCAL_250_M_HZ)]
    else if v == 62 then [SetBits(FCAL_62_M_HZ)]
    else if v == 16 then [SetBits(FCAL_16_M_HZ)]
    else [ClearBits(FCAL_256_HZ_RESET)]
  }

  /** The input switches `-N` edits: CNFG_EMUX bits 20 (negative) and 21 (positive). */
  const INPUT_SWITCHES: bv32 := OPENP_CONNECTED_RESET | OPENN_CONNECTED_RESET

  /** `-N`: input switches; 4 and 3 connect one input each, 1 and 2 both set bit 20. */
  function InputSwitchOps(v: uint32): (ops: seq<MaskOp>)
  {
    if v == 4 then [ClearBits(OPENP_CONNECTED_RESET)]
    else if v == 3 then [ClearBits(OPENN_CONNECTED_RESET)]
    else if v == 1 then [SetBits(OPENN_CONNECTED_RESET)]
    else if v == 2 then [SetBits(OPENN_ISOLATED)]
    else [ClearBits(OPENN_CONNECTED_RESET), ClearBits(OPENP_CONNECTED_RESET)]
  }

  /** `-t`: positive calibration input in CNFG_EMUX bits 18-19. */
  function CalpSelOps(v: uint32): (ops: seq<MaskOp>)
  {
    if v == 4 then [SetBits(CALP_SEL_NC_RESET)]
    else if v == 1 then [SetBits(CALP_SEL_V_MID)]
    else if v == 2 then [SetBits(CALP_SEL_V_CALP)]
    else if v == 3 then [SetBits(CALP_SEL_V_CALN)]
    else [SetBits(CALP_SEL_NC_RESET)]
  }

  /** `-T`: negative calibration input in CNFG_EMUX bits 16-17. */
  function CalnSelOps(v: uint32): (ops: seq<MaskOp>)
  {
    if v == 4 then [SetBits(CALN_SEL_NC_RESET)]
    else if v == 1 then [SetBits(CALN_SEL_V_MID)]
    else if v == 2 then [SetBits(CALN_SEL_V_CALP)]
    else if v == 3 then [SetBits(CALN_SEL_V_CALN)]
    else [SetBits(CALN_SEL_NC_RESET)]
  }

  /** The register image an option edits. */
  datatype Target = TargetGen | TargetCal | TargetEmux | TargetEcg | TargetMngrInt

  /** The current value of the targeted image. */
  function RegOf(regs: Regs, t: Target): bv32
  {
    match t
    case TargetGen => regs.cnfgGen
    case TargetCal => regs.cnfgCal
    case TargetEmux => regs.cnfgEmux
    case TargetEcg => regs.cnfgEcg
    case TargetMngrInt => regs.mngrInt
  }

  /** The images with the targeted one replaced by `value`. */
  function WithReg(regs: Regs, t: Target, value: bv32): (r: Regs)
    ensures RegOf(r, t) == value
    ensures forall u: Target | u != t :: RegOf(r, u) == RegOf(regs, u)
  {
    match t
    case TargetGen => regs.(cnfgGen := value)
    case TargetCal => regs.(cnfgCal := value)
    case TargetEmux => regs.(cnfgEmux := value)
    case TargetEcg => regs.(cnfgEcg := value)
    case TargetMngrInt => regs.(mngrInt := value)
  }

  /** The options whose argument edits a register image. */
  predicate IsRegisterOption(c: char)
  {
    match c
    case 'g' | 'S' | 'H' | 'e' | 'p' | 'a' | 'f' | 'E' | 'u' | 'l' | 'P' | 'm'
       | 'v' | 'B' | 'r' | 'i' | 'F' | 'c' | 'o' | 'C' | 'I' | 'N' | 't' | 'T' => true
    case _ => false
  }

  /** The image option `c` edits. */
  function TargetOf(c: char): Target
  {
    match c
    case 'g' | 'S' | 'H' => TargetEcg
    case 'e' | 'p' | 'a' | 'f' => TargetMngrInt
    case 'E' | 'u' | 'l' | 'P' | 'm' | 'v' | 'B' | 'r' | 'i' => TargetGen
    case 'F' | 'c' | 'o' | 'C' => TargetCal
    case _ => TargetEmux
  }

  /** The bits option `c` is meant to configure: its field's `*_RESET` mask (wider for `F`, two switches for `N`). */
  function Field(c: char): bv32
  {
    match c
    case 'g' => ECG_GAIN_20_RESET
    case 'S' => ECG_GAIN_512_RESET
    case 'H' => DHPF_BYPASS_RESET
    case 'e' => EFIT_1_RESET
    case 'p' => CLEAR_PRINT_ON_STATUS_RESET
    case 'a' => CLR_SAMP_ON_STATUS_RESET
    case 'f' => SAMP_EVERY_SAMPLE_RESET
    case 'E' => ECG_CHAN_DIS_RESET
    case 'u' => ULP_DIS_RESET
    case 'l' => LEADOFF_DIS_RESET
    case 'P' => DCLOFFP_PULL_DOWN_RESET
    case 'm' => DCLOFF_CUR_DISABLE_RESET
    case 'v' => DCLOFF_VTH_300_M_V_RESET
    case 'B' => RBIAS_DISABLED_RESET
    case 'r' => RBIAS_SEL_50_M_OHM_RESET
    case 'i' => RBIASN_NC_RESET
    case 'F' => FCAL_EDITED
    case 'c' => CALIB_SRCS_DIS_RESET
    case 'o' => VMODE_UNIPOL_RESET
    case 'C' => VMAG_0_25_M_V_RESET
    case 'I' => POL_NON_INV_RESET
    case 'N' => INPUT_SWITCHES
    case 't' => CALP_SEL_NC_RESET
    case 'T' => CALN_SEL_NC_RESET
    case _ => 0
  }

  /** The macros the `switch` of option `c` issues for the value `v`. */
  function OptionOps(c: char, v: uint32): (ops: seq<MaskOp>)
    requires IsRegisterOption(c)
  {
    match c
    case 'g' => GainOps(v)
    case 'S' => RateOps(v)
    case 'H' => HighPassOps(v)
    case 'e' => EfitOps(v)
    case 'p' => ClearPrintOps(v)
    case 'a' => SampClearOps(v)
    case 'f' => SampFreqOps(v)
    case 'E' => EnableOps(v, ECG_CHAN_EN, ECG_CHAN_DIS_RESET)
    case 'u' => EnableOps(v, ULP_ENABLE, ULP_DIS_RESET)
    case 'l' => EnableOps(v, LEADOFF_EN, LEADOFF_DIS_RESET)
    case 'P' => EnableOps(v, DCLOFFP_PULL_UP, DCLOFFP_PULL_DOWN_RESET)
    case 'm' => LeadoffMagOps(v)
    case 'v' => LeadoffVolOps(v)
    case 'B' => EnableOps(v, RBIAS_ENABLED, RBIAS_DISABLED_RESET)
    case 'r' => RbiasValOps(v)
    case 'i' => RbiasInputOps(v)
    case 'F' => CalFreqOps(v)
    case 'c' => EnableOps(v, CALIB_SRCS_ENABLE, CALIB_SRCS_DIS_RESET)
    case 'o' => EnableOps(v, VMODE_BIPOL, VMODE_UNIPOL_RESET)
    case 'C' => EnableOps(v, VMAG_0_50_M_V, VMAG_0_25_M_V_RESET)
    case 'I' => EnableOps(v, POL_INV, POL_NON_INV_RESET)
    case 'N' => InputSwitchOps(v)
    case 't' => CalpSelOps(v)
    case 'T' => CalnSelOps(v)
  }

  /** The enable-style macros stay in the field when `on` does. */
  lemma EnableOpsInside(v: uint32, on: bv32, field: bv32)
    requires InField(on, field)
    ensures OpsInside(EnableOps(v, on, field), field)
  {
    assert InField(field, field);
  }

  /** The CNFG_ECG switches mask only bits of their fields. */
  lemma EcgOpsInside(v: uint32)
    ensures OpsInside(GainOps(v), Field('g')) && OpsInside(RateOps(v), Field('S'))
    ensures OpsInside(HighPassOps(v), Field('H'))
  {
    CodesInsideTheirFields();
  }

  /** The MNGR_INT switches mask only bits of their fields. */
  lemma InterruptOpsInside(v: uint32)
    ensures OpsInside(EfitOps(v), Field('e')) && OpsInside(ClearPrintOps(v), Field('p'))
    ensures OpsInside(SampClearOps(v), Field('a')) && OpsInside(SampFreqOps(v), Field('f'))
  {
    CodesInsideTheirFields();
  }

  /** The CNFG_GEN switches with multi-valued fields mask only bits of their fields. */
  lemma GeneralOpsInside(v: uint32)
    ensures OpsInside(LeadoffMagOps(v), Field('m')) && OpsInside(LeadoffVolOps(v), Field('v'))
    ensures OpsInside(RbiasValOps(v), Field('r')) && OpsInside(RbiasInputOps(v), Field('i'))
  {
    CodesInsideTheirFields();
  }

  /** The `-F` switch masks only bits of the FCAL field and of bits 16-18. */
  lemma CalFreqOpsInside(v: uint32)
    ensures OpsInside(CalFreqOps(v), Field('F'))
  {
    FcalCodesAndTheirMask();
  }

  /** The CNFG_EMUX switches mask only bits of their fields. */
  lemma EmuxOpsInside(v: uint32)
    ensures OpsInside(InputSwitchOps(v), Field('N'))
    ensures OpsInside(CalpSelOps(v), Field('t')) && OpsInside(CalnSelOps(v), Field('T'))
  {
  }

  /** The enable-style options. */
  predicate IsEnableOption(c: char)
  {
    match c
    case 'E' | 'u' | 'l' | 'P' | 'B' | 'c' | 'o' | 'C' | 'I' => true
    case _ => false
  }

  /** The enable-style switches mask only bits of their fields. */
  lemma EnableOptionOpsInside(c: char, v: uint32)
    requires IsEnableOption(c)
    ensures OpsInside(OptionOps(c, v), Field(c))
  {
    match c
    case 'E' => EnableOpsInside(v, ECG_CHAN_EN, ECG_CHAN_DIS_RESET);
    case 'u' => EnableOpsInside(v, ULP_ENABLE, ULP_DIS_RESET);
    case 'l' => EnableOpsInside(v, LEADOFF_EN, LEADOFF_DIS_RESET);
    case 'P' => EnableOpsInside(v, DCLOFFP_PULL_UP, DCLOFFP_PULL_DOWN_RESET);
    case 'B' => EnableOpsInside(v, RBIAS_ENABLED, RBIAS_DISABLED_RESET);
    case 'c' => EnableOpsInside(v, CALIB_SRCS_ENABLE, CALIB_SRCS_DIS_RESET);
    case 'o' => EnableOpsInside(v, VMODE_BIPOL, VMODE_UNIPOL_RESET);
    case 'C' => EnableOpsInside(v, VMAG_0_50_M_V, VMAG_0_25_M_V_RESET);
    case 'I' => EnableOpsInside(v, POL_INV, POL_NON_INV_RESET);
  }

  /** The switches with multi-valued fields mask only bits of their fields. */
  lemma MultiValuedOptionOpsInside(c: char, v: uint32)
    requires IsRegisterOption(c) && !IsEnableOption(c)
    ensures OpsInside(OptionOps(c, v), Field(c))
  {
    match c
    case 'g' | 'S' | 'H' => EcgOpsInside(v);
    case 'e' | 'p' | 'a' | 'f' => InterruptOpsInside(v);
    case 'm' | 'v' | 'r' | 'i' => GeneralOpsInside(v);
    case 'F' => CalFreqOpsInside(v);
    case 'N' | 't' | 'T' => EmuxOpsInside(v);
  }

  /** Every macro an option's `switch` issues, for any value, masks only bits of the option's field. */
  lemma OptionOpsInside(c: char, v: uint32)
    requires IsRegisterOption(c)
    ensures OpsInside(OptionOps(c, v), Field(c))
  {
    if IsEnableOption(c) {
      EnableOptionOpsInside(c, v);
    } else {
      MultiValuedOptionOpsInside(c, v);
    }
  }

  /**
   * The register images after option `c` with value `v`: only the image the
   * option targets changes, and in it only the bits of its field.
   */
  function RegisterUpdate(c: char, v: uint32, regs: Regs): (r: Regs)
    requires IsRegisterOption(c)
    ensures SameOutside(RegOf(r, TargetOf(c)), RegOf(regs, TargetOf(c)), Field(c))
    ensures forall t: Target | t != TargetOf(c) :: RegOf(r, t) == RegOf(regs, t)
  {
    var reg := RegOf(regs, TargetOf(c));
    OptionOpsInside(c, v);
    ApplyOpsStayInside(OptionOps(c, v), reg, Field(c));
    WithReg(regs, TargetOf(c), ApplyOps(OptionOps(c, v), reg))
  }

  /** The handle members in which `parse_opts` records an option's value (the rest go to a local). */
  function Remember(c: char, v: uint32, sel: Selections): Selections
  {
    match c
    case 'g' => sel.(gain := v)
    case 'S' => sel.(sampleRate := v)
    case 'H' => sel.(hpfCutoff := v)
    case 'e' => sel.(efit := v)
    case 'p' => sel.(clearPrint := v)
    case 'm' => sel.(dcLeadoffMag := v)
    case 'v' => sel.(dcLeadoffVol := v)
    case 'r' => sel.(rbiasVal := v)
    case 'i' => sel.(rbiasInputCon := v)
    case 'F' => sel.(calFreq := v)
    case 'N' => sel.(inputSwitch := v)
    case 't' => sel.(calpSel := v)
    case 'T' => sel.(calnSel := v)
    case _ => sel
  }

  /** Everything `parse_opts` configures: the bus settings, the register images and the recorded values. */
  datatype Setup = Setup(params: SpiParams, regs: Regs, sel: Selections)

  /**
   * How `parse_opts` ends: by returning a code, or by ending the process
   * through `exit` (`print_usage`, or `CHECK_CODE_ERR` with the failed code).
   */
  datatype Outcome = Returned(code: RetCode) | Exited(status: int)

  /** The effect of one option: go on with a new setup, or stop with an outcome. */
  datatype Step = Next(setup: Setup) | Stop(outcome: Outcome)

  /** The options whose argument must be a number. */
  predicate IsNumericOption(c: char)
  {
    c == 's' || c == 'b' || IsRegisterOption(c)
  }

  /** The effect of a numeric option whose argument has passed `__check_digit_opt`, with value `v`. */
  function NumericStep(c: char, v: uint32, s: Setup): Setup
    requires IsNumericOption(c)
  {
    if c == 's' then s.(params := s.params.(speed := v as int as bv32))
    else if c == 'b' then s.(params := s.params.(bits := (v as int % 0x100) as bv8))
    else s.(regs := RegisterUpdate(c, v, s.regs), sel := Remember(c, v, s.sel))
  }

  /** One pass of the option loop of `parse_opts`. */
  function OptionStep(o: Opt, s: Setup): Step
  {
    if o.name == 'D' then
      if o.arg.None? then Stop(Returned(NullPtr)) else Next(s.(params := s.params.(devName := o.arg.value)))
    else if o.name == 'L' then
      Next(s.(params := s.params.(lsb := s.params.lsb | SPI_LSB_FIRST)))
    else if IsNumericOption(o.name) then
      if o.arg.None? then Stop(Exited(NullPtr.Value()))
      else if !AllDigits(o.arg.value) then Stop(Exited(InvalidParams.Value()))
      else Next(NumericStep(o.name, AtoiU32(o.arg.value), s))
    else
      Stop(Exited(EXIT_FAILURE))
  }

  /** What the option loop leaves: the setup and how it ended. */
  datatype Parsed = Parsed(setup: Setup, outcome: Outcome)

  /** The option loop from option `i` on. */
  function ParseFrom(opts: seq<Opt>, i: nat, s: Setup): Parsed
    requires i <= |opts|
    decreases |opts| - i
  {
    if i == |opts| then Parsed(s, Returned(Success))
    else match OptionStep(opts[i], s)
      case Stop(out) => Parsed(s, out)
      case Next(s') => ParseFrom(opts, i + 1, s')
  }

  /**
   * The option loop of `parse_opts` on two valid handles: apply the options
   * in order, stopping at the first one that makes `parse_opts` return or
   * end the process.
   */
  method ApplyOptions(opts: seq<Opt>, spi: Spi, ecg: EcgData) returns (out: Outcome)
    modifies spi`params, ecg`regs, ecg`sel
    ensures Parsed(Setup(spi.params, ecg.regs, ecg.sel), out)
            == ParseFrom(opts, 0, Setup(old(spi.params), old(ecg.regs), old(ecg.sel)))
  {
    ghost var goal := ParseFrom(opts, 0, Setup(spi.params, ecg.regs, ecg.sel));
    var i := 0;
    while i < |opts|
      invariant 0 <= i <= |opts|
      invariant goal == ParseFrom(opts, i, Setup(spi.params, ecg.regs, ecg.sel))
      decreases |opts| - i
    {
      var o := opts[i];
      if o.name == 'D' {
        if o.arg.None? {
          return Returned(NullPtr);
        }
        spi.params := spi.params.(devName := o.arg.value);
      } else if o.name == 'L' {
        spi.params := spi.params.(lsb := spi.params.lsb | SPI_LSB_FIRST);
      } else if IsNumericOption(o.name) {
        var code := CheckDigitOpt(o.arg);
        if code != Success {
          return Exited(code.Value());
        }
        var v := AtoiU32(o.arg.value);
        if o.name == 's' {
          spi.params := spi.params.(speed := v as int as bv32);
        } else if o.name == 'b' {
          spi.params := spi.params.(bits := (v as int % 0x100) as bv8);
        } else {
          ecg.sel := Remember(o.name, v, ecg.sel);
          ecg.regs := RegisterUpdate(o.name, v, ecg.regs);
        }
      } else {
        // 'h' and every character without a case of its own: print_usage, which exits.
        return Exited(EXIT_FAILURE);
      }
      i := i + 1;
    }
    out := Returned(Success);
  }

  /** The handle a possibly null `spi_t *` points to, as a set of zero or one objects. */
  function SpiHandle(spi: Spi?): set<Spi>
  {
    if spi == null then {} else {spi}
  }

  /**
   * `parse_opts`: refuse a bad argument count or a missing `argv`, `spi` or
   * `ecg_data` without touching anything; otherwise reset the device name
   * and speed to their defaults and run the option loop. `argv` stands for
   * the options `getopt_long` finds in it (`None` for a null `argv`).
   */
  method ParseOpts(argc: int, argv: Option<seq<Opt>>, spi: Spi?, ecg: EcgData?) returns (out: Outcome)
    modifies SpiHandle(spi)`params, Handle(ecg)`regs, Handle(ecg)`sel
    ensures argc < 1 ==> out == Returned(InvalidParams)
    ensures argc >= 1 && (argv.None? || spi == null || ecg == null) ==> out == Returned(NullPtr)
    ensures argc < 1 || argv.None? || spi == null || ecg == null ==>
              && (spi != null ==> spi.params == old(spi.params))
              && (ecg != null ==> ecg.regs == old(ecg.regs) && ecg.sel == old(ecg.sel))
    ensures argc >= 1 && argv.Some? && spi != null && ecg != null ==>
              Parsed(Setup(spi.params, ecg.regs, ecg.sel), out)
              == ParseFrom(argv.value, 0,
                           Setup(old(spi.params).(devName := SPI_DEVICE_NAME, speed := SPI_MAX_SPEED),
                                 old(ecg.regs), old(ecg.sel)))
  {
    if argc < 1 {
      return Returned(InvalidParams);
    }
    if argv.None? || spi == null || ecg == null {
      return Returned(NullPtr);
    }
    spi.params := spi.params.(devName := SPI_DEVICE_NAME, speed := SPI_MAX_SPEED);
    out := ApplyOptions(argv.value, spi, ecg);
  }

  // ---------------------------------------------------------------------------
  // What the option switches do to the register images
  // ---------------------------------------------------------------------------

  /** The `case` labels of option `c`'s `switch`. */
  function Labels(c: char): set<uint32>
  {
    match c
    case 'g' => {20, 40, 80, 160}
    case 'S' => {512, 128, 256}
    case 'H' => {2, 1}
    case 'e' => {16, 2, 1}
    case 'p' => {0, 1, 2}
    case 'f' => {1, 2, 4, 16}
    case 'm' => {0, 5, 10, 20, 50, 100}
    case 'v' => {300, 400, 450, 500}
    case 'r' => {50, 100, 200}
    case 'i' => {0, 1, 2}
    case 'F' => {256000, 64000, 16000, 4000, 1000, 250, 62, 16}
    case 'N' => {4, 3, 1, 2}
    case 't' => {4, 1, 2, 3}
    case 'T' => {4, 1, 2, 3}
    case _ => {1, 2}
  }

  /** The value each option's `default` branch announces it will fall back to. */
  function DocumentedDefault(c: char): uint32
  {
    match c
    case 'g' => 20
    case 'S' => 512
    case 'H' => 1
    case 'e' => 1
    case 'p' => 0
    case 'a' => 2
    case 'f' => 1
    case 'm' => 0
    case 'v' => 300
    case 'r' => 50
    case 'i' => 0
    case 'F' => 256000
    case 't' => 4
    case 'T' => 4
    case _ => 1
  }

  /**
   * An unrecognised value issues exactly the macros of the announced
   * fallback, for every register option except `r` and `N`.
   */
  lemma UnknownValueActsAsDefault(c: char, v: uint32)
    requires IsRegisterOption(c) && c != 'r' && c != 'N' && v !in Labels(c)
    ensures DocumentedDefault(c) in Labels(c)
    ensures OptionOps(c, v) == OptionOps(c, DocumentedDefault(c))
  {
    match c
    case 'g' =>
    case 'S' =>
    case 'H' =>
    case 'e' =>
    case 'p' =>
    case 'a' =>
    case 'f' =>
    case 'm' =>
    case 'v' =>
    case 'i' =>
    case 'F' =>
    case 't' =>
    case 'T' =>
    case _ =>
  }

  /**
   * `-r` with an unrecognised value issues no macro and changes nothing,
   * although its message announces the 50 MOhm setting, which clears the
   * field.
   */
  lemma RbiasUnknownKeepsRegisters(v: uint32)
    requires v !in Labels('r')
    ensures OptionOps('r', v) == []
    ensures OptionOps('r', DocumentedDefault('r')) == [ClearBits(RBIAS_SEL_50_M_OHM_RESET)]
  {
  }

  /** Two macros in a row. */
  lemma ApplyTwo(a: MaskOp, b: MaskOp, reg: bv32)
    ensures ApplyOps([a, b], reg) == Apply(b, Apply(a, reg))
  {
    var x := Apply(a, reg);
    assert [a, b][1..] == [b] && [b][1..] == [];
    calc {
      ApplyOps([a, b], reg);
      ApplyOps([b], x);
      ApplyOps([], Apply(b, x));
    }
  }

  /** Two clears in a row leave both masks clear. */
  lemma ClearBoth(reg: bv32, m1: bv32, m2: bv32)
    ensures BitmaskClear(BitmaskClear(reg, m1), m2) & (m1 | m2) == 0
  {
  }

  /** `-N` with an unrecognised value connects both inputs: bits 20 and 21 of CNFG_EMUX cleared. */
  lemma InputSwitchUnknownConnectsBoth(v: uint32, reg: bv32)
    requires v !in Labels('N')
    ensures ApplyOps(OptionOps('N', v), reg) & INPUT_SWITCHES == 0
  {
    assert OptionOps('N', v) == [ClearBits(OPENN_CONNECTED_RESET), ClearBits(OPENP_CONNECTED_RESET)];
    ApplyTwo(ClearBits(OPENN_CONNECTED_RESET), ClearBits(OPENP_CONNECTED_RESET), reg);
    ClearBoth(reg, OPENN_CONNECTED_RESET, OPENP_CONNECTED_RESET);
  }

  /**
   * `-N 1` ("positive isolated") issues what `-N 2` does: both set bit 20,
   * the negative input's switch, and no value of `-N` sets bit 21.
   */
  lemma InputSwitchNeverIsolatesPositive(v: uint32)
    ensures OptionOps('N', 1) == OptionOps('N', 2) == [SetBits(OPENN_ISOLATED)]
    ensures forall k | 0 <= k < |OptionOps('N', v)| ::
              OptionOps('N', v)[k].SetBits? ==> OptionOps('N', v)[k].mask & OPENP_ISOLATED == 0
  {
  }

  /**
   * `-t 4` and `-T 4` ("no calibration signal") set the whole selection
   * field, which is the code of VCALN: they issue what `3` does.
   */
  lemma NoCalibrationSelectsVcaln()
    ensures OptionOps('t', 4) == OptionOps('t', 3) == [SetBits(CALP_SEL_V_CALN)]
    ensures OptionOps('T', 4) == OptionOps('T', 3) == [SetBits(CALN_SEL_V_CALN)]
  {
  }

  /**
   * Gain codes are only ever OR-ed in: `-g 40` followed by `-g 80` selects
   * the 160 V/V code, whatever the field held.
   */
  lemma GainCodesAccumulate(regs: Regs)
    ensures RegisterUpdate('g', 80, RegisterUpdate('g', 40, regs)).cnfgEcg & ECG_GAIN_20_RESET == ECG_GAIN_160
  {
    var x := BitmaskSet(regs.cnfgEcg, ECG_GAIN_40);
    assert RegisterUpdate('g', 40, regs).cnfgEcg == x by {
      assert ApplyOps([SetBits(ECG_GAIN_40)], regs.cnfgEcg) == x;
    }
    assert ApplyOps([SetBits(ECG_GAIN_80)], x) == BitmaskSet(x, ECG_GAIN_80);
  }

  /**
   * The three slowest calibration frequencies write bits 16-18, outside the
   * FCAL field, and selecting 256 Hz afterwards does not clear them.
   */
  lemma SlowCalibrationCodesOutliveReset(regs: Regs)
    ensures var r := RegisterUpdate('F', 256000, RegisterUpdate('F', 250, regs)).cnfgCal;
            && r & FCAL_256_HZ_RESET == 0
            && r & FCAL_16_M_HZ == FCAL_250_M_HZ | (regs.cnfgCal & FCAL_16_M_HZ)
  {
    var x := BitmaskSet(regs.cnfgCal, FCAL_250_M_HZ);
    assert RegisterUpdate('F', 250, regs).cnfgCal == x by {
      assert ApplyOps([SetBits(FCAL_250_M_HZ)], regs.cnfgCal) == x;
    }
    assert ApplyOps([ClearBits(FCAL_256_HZ_RESET)], x) == BitmaskClear(x, FCAL_256_HZ_RESET);
  }

  // ---------------------------------------------------------------------------
  // The option loop
  // ---------------------------------------------------------------------------

  /** An option the loop accepts and goes past. */
  predicate Accepted(o: Opt)
  {
    || (o.name == 'D' && o.arg.Some?)
    || o.name == 'L'
    || (IsNumericOption(o.name) && o.arg.Some? && AllDigits(o.arg.value))
  }

  /**
   * The loop finishes with `RET_CODE_SUCCESS` exactly when every option is
   * accepted; otherwise it stops with a null `-D` argument
   * (`RET_CODE_NULL_PTR`), or exits with the code of a failed digit check or
   * with `EXIT_FAILURE` from the usage text.
   */
  lemma {:induction false} ParseSucceedsIffAllAccepted(opts: seq<Opt>, i: nat, s: Setup)
    requires i <= |opts|
    ensures var out := ParseFrom(opts, i, s).outcome;
            && (out == Returned(Success) <==> forall k | i <= k < |opts| :: Accepted(opts[k]))
            && (out.Returned? ==> out.code == Success || out.code == NullPtr)
            && (out.Exited? ==> out.status in {EXIT_FAILURE, NullPtr.Value(), InvalidParams.Value()})
    decreases |opts| - i
  {
    if i < |opts| {
      match OptionStep(opts[i], s)
      case Stop(_) =>
        assert !Accepted(opts[i]);
      case Next(s') =>
        assert Accepted(opts[i]);
        ParseSucceedsIffAllAccepted(opts, i + 1, s');
    }
  }

  /** Bus options leave the register images and the recorded values alone; register options leave the bus settings alone. */
  lemma OptionStepFrame(o: Opt, s: Setup)
    requires OptionStep(o, s).Next?
    ensures var s' := OptionStep(o, s).setup;
            && (!IsRegisterOption(o.name) ==> s'.regs == s.regs && s'.sel == s.sel)
            && (IsRegisterOption(o.name) ==> s'.params == s.params)
  {
  }

  /** The options that set up the bus rather than a register. */
  predicate IsBusOption(c: char)
  {
    c == 'D' || c == 'L' || c == 's' || c == 'b'
  }

  /** The bits of register `t` that option `c` may set or clear: its field there, or none. */
  function OwnMask(c: char, t: Target): bv32
  {
    if IsRegisterOption(c) && TargetOf(c) == t then Field(c) else 0
  }

  /** The bits of register `t` that the register options from `i` on may set or clear. */
  function TouchedMask(opts: seq<Opt>, i: nat, t: Target): bv32
    requires i <= |opts|
    decreases |opts| - i
  {
    if i == |opts| then 0
    else OwnMask(opts[i].name, t) | TouchedMask(opts, i + 1, t)
  }

  lemma SameOutsideRefl(a: bv32, field: bv32)
    ensures SameOutside(a, a, field)
  {
  }

  /** Two changes, the first confined to `here` and the second to `later`, together stay inside both. */
  lemma SameOutsideChain(a: bv32, b: bv32, c: bv32, here: bv32, later: bv32)
    requires SameOutside(b, a, here) && SameOutside(c, b, later)
    ensures SameOutside(c, a, here | later)
  {
  }

  /**
   * One accepted option changes register `t` only inside the field it
   * names there (nowhere, when it names another register or none).
   */
  /** A register option's update changes register `t` only inside the option's own mask there. */
  lemma RegisterUpdateTouches(c: char, v: uint32, regs: Regs, t: Target)
    requires IsRegisterOption(c)
    ensures SameOutside(RegOf(RegisterUpdate(c, v, regs), t), RegOf(regs, t), OwnMask(c, t))
  {
    if TargetOf(c) != t {
      SameOutsideRefl(RegOf(regs, t), 0);
    }
  }

  /** An accepted numeric option takes the numeric step with its argument's value. */
  lemma OptionStepNumeric(o: Opt, s: Setup)
    requires OptionStep(o, s).Next? && IsNumericOption(o.name)
    ensures o.arg.Some? && OptionStep(o, s).setup == NumericStep(o.name, AtoiU32(o.arg.value), s)
  {
  }

  /** A register option's numeric step changes register `t` only inside the option's own mask there. */
  lemma NumericStepTouches(c: char, v: uint32, s: Setup, t: Target)
    requires IsRegisterOption(c)
    ensures SameOutside(RegOf(NumericStep(c, v, s).regs, t), RegOf(s.regs, t), OwnMask(c, t))
  {
    assert c != 's' && c != 'b';
    RegisterUpdateTouches(c, v, s.regs, t);
  }

  /** One accepted option changes register `t` only inside its own mask there. */
  lemma OptionStepTouches(o: Opt, s: Setup, t: Target)
    requires OptionStep(o, s).Next?
    ensures SameOutside(RegOf(OptionStep(o, s).setup.regs, t), RegOf(s.regs, t), OwnMask(o.name, t))
  {
    if IsRegisterOption(o.name) {
      OptionStepNumeric(o, s);
      NumericStepTouches(o.name, AtoiU32(o.arg.value), s, t);
    } else {
      OptionStepFrame(o, s);
      SameOutsideRefl(RegOf(s.regs, t), 0);
    }
  }

  /** An accepted option other than a bus option leaves the bus settings alone. */
  lemma OptionStepKeepsBus(o: Opt, s: Setup)
    requires OptionStep(o, s).Next? && !IsBusOption(o.name)
    ensures OptionStep(o, s).setup.params == s.params
  {
    OptionStepFrame(o, s);
  }

  /**
   * What a whole run of the option loop may change in register `t`: its
   * image differs from where it started only inside the fields of the
   * register options given for it.
   */
  lemma {:induction false} ParseFromTouches(opts: seq<Opt>, i: nat, s: Setup, t: Target)
    requires i <= |opts|
    ensures SameOutside(RegOf(ParseFrom(opts, i, s).setup.regs, t), RegOf(s.regs, t), TouchedMask(opts, i, t))
    decreases |opts| - i
  {
    if i == |opts| || OptionStep(opts[i], s).Stop? {
      SameOutsideRefl(RegOf(s.regs, t), TouchedMask(opts, i, t));
    } else {
      var s1 := OptionStep(opts[i], s).setup;
      var s' := ParseFrom(opts, i + 1, s1).setup;
      var here, later := OwnMask(opts[i].name, t), TouchedMask(opts, i + 1, t);
      assert ParseFrom(opts, i, s).setup == s';
      assert TouchedMask(opts, i, t) == here | later;
      assert SameOutside(RegOf(s'.regs, t), RegOf(s.regs, t), here | later) by {
        ParseFromTouches(opts, i + 1, s1, t);
        OptionStepTouches(opts[i], s, t);
        SameOutsideChain(RegOf(s.regs, t), RegOf(s1.regs, t), RegOf(s'.regs, t), here, later);
      }
    }
  }

  /** A run of the option loop with no bus option among its options leaves the bus settings as they were. */
  lemma {:induction false} ParseFromKeepsBus(opts: seq<Opt>, i: nat, s: Setup)
    requires i <= |opts|
    requires forall j | i <= j < |opts| :: !IsBusOption(opts[j].name)
    ensures ParseFrom(opts, i, s).setup.params == s.params
    decreases |opts| - i
  {
    if i < |opts| && OptionStep(opts[i], s).Next? {
      OptionStepKeepsBus(opts[i], s);
      ParseFromKeepsBus(opts, i + 1, OptionStep(opts[i], s).setup);
    }
  }

  /** Adding whole multiples of 256 does not change the low byte. */
  lemma {:induction false} LowByteOfMultiple(m: nat, r: nat)
    ensures (m * 0x100 + r) % 0x100 == r % 0x100
    decreases m
  {
    if m > 0 {
      LowByteOfMultiple(m - 1, r);
      assert m * 0x100 + r == ((m - 1) * 0x100 + r) + 0x100;
    }
  }

  /** Reducing modulo 2^32 first leaves the low byte as it was. */
  lemma LowWordKeepsLowByte(n: nat)
    ensures (n % 0x1_0000_0000) % 0x100 == n % 0x100
  {
    var q := n / 0x1_0000_0000;
    var r := n % 0x1_0000_0000;
    assert n == (q * 0x100_0000) * 0x100 + r;
    LowByteOfMultiple(q * 0x100_0000, r);
  }

  /** `-b` keeps the low byte of the number typed, whatever its size. */
  lemma BitsKeepLowByte(arg: string, s: Setup)
    requires AllDigits(arg)
    ensures NumericStep('b', AtoiU32(arg), s).params.bits == (DecimalValue(arg) % 0x100) as bv8
  {
    LowWordKeepsLowByte(DecimalValue(arg));
  }

  /** `-L` sets the LSB-first flag of the mode byte and no other bit. */
  lemma LsbFirstSetsOneFlag(s: Setup)
    ensures var l := OptionStep(Opt('L', None), s).setup.params.lsb;
            l & SPI_LSB_FIRST == SPI_LSB_FIRST && l & 0xF7 == s.params.lsb & 0xF7
  {
  }
}
