# MAX30003 ECG front end: a Dafny model of the Linux userspace driver

The driver talks to a Maxim MAX30003 ECG chip over spidev. It has three parts:

- **Register access** (`src/MAX30003.c`). A write sends a 4-byte frame: the command byte `(addr << 1) | WREG`, then the low 24 bits of the data. A read clocks out `(addr << 1) | RREG` and takes 4 bytes back.
- **The measurement handle** `ecg_data_t`. It holds six register images and the option values given on the command line. Setters fill it in. `ecg_init_handle` loads the power-on defaults.
- **Configuration and acquisition.**
  - `parse_opts` (`src/get_opt_parser.c`) turns each command-line option into read-modify-write edits of one register image. It uses the bit macros of `inc/common_check.h`.
  - `max30003_init` uploads the images between a software reset and a synch. The first failed write ends the upload.
  - `ecg_get_data` polls STATUS and ECG_FIFO until 1024 non-zero samples are stored. It gives up when the clock fails or the timeout passes.

The model has seven modules:

| module | contents |
|---|---|
| `Common` | return codes and the bit macros |
| `Registers` | the register map of `inc/MAX30003.h` |
| `Transport` | an `Spi` handle whose `bus` records every frame clocked out; it answers from a given list of replies |
| `Protocol` | register access, FIFO decoding, the status check |
| `Max30003` | the `EcgData` class, its setters, and the upload |
| `Acquisition` | the polling loop |
| `Options` | `parse_opts` and its digit checks |

State the source updates in place is a class field that the methods reassign:

- the bus and the SPI settings (`Transport.Spi`);
- the handle's fields, including its sample array (`Max30003.EcgData`).

Each method is tied by its `ensures` to a function over the old state: `UploadFrom`, `Measure` or `ParseFrom`. Lemmas then state what that function guarantees.

## Model

| member | source | states |
|---|---|---|
| Common.RetCode.Value | inc/common_types.h:13-39 | the enumerator values; zero exactly for success, 200 and above exactly for the SPI codes |
| Common.BitmaskSet | inc/common_check.h:29 | every mask bit ends up set, every other bit is unchanged |
| Common.BitmaskClear | inc/common_check.h:30 | every mask bit ends up clear, every other bit is unchanged |
| Common.BitmaskFlip | inc/common_check.h:31 | mask bits are inverted, the others unchanged |
| Common.BitmaskCheckAny | inc/common_check.h:33 | the result is zero iff no mask bit is set, and it has no bit outside the mask |
| Common.SetBit | inc/common_check.h:21 | `SET_BIT` is `BITMASK_SET` with the one-bit mask |
| Common.ClrBit | inc/common_check.h:20 | `CLR_BIT` is `BITMASK_CLEAR` with the one-bit mask |
| Common.MultibitSet | inc/common_check.h:23-24 | for a mask within the low byte: mask bits come from `value`, other low-byte bits from `addr`, and nothing above bit 7 survives |
| Common.ContinueOnSuccess | inc/common_check.h:93-99 | leaves iff the code is a failure, storing it; otherwise the result variable keeps its value |
| Common.FlipTwice | inc/common_check.h:31 | flipping twice with one mask restores the register |
| Common.CheckAfterSetAndClear | inc/common_check.h:29-33 | all mask bits check after a set; none checks after a clear |
| Common.CheckAllMeansSetIsIdle | inc/common_check.h:29-32 | `BITMASK_CHECK_ALL` holds iff setting the mask changes nothing |
| Registers.EcgDefaultValue | inc/MAX30003.h:97-115 | the CNFG_ECG default built from its field codes is 0x827000 |
| Registers.DefaultsAreWords | inc/MAX30003.h:97-247 | every default the driver programs fits the chip's 24-bit registers |
| Registers.DefaultsDecompose | inc/MAX30003.h:135-243 | the CNFG_GEN, MNGR_INT and CNFG_EMUX defaults are ORs of named field codes |
| Registers.CodesInsideTheirFields | inc/MAX30003.h:99-188 | each multi-valued field code lies inside its `*_RESET` field mask |
| Registers.FcalCodesAndTheirMask | inc/MAX30003.h:211-218 | the four fastest FCAL codes lie inside `FCAL_256_HZ_RESET`; the three slowest lie wholly outside it |
| Registers.StatusFlagsInHighByte | src/MAX30003.c:28-52 | EINT and EOVF, shifted down 16, are the distinct single bits 0x80 and 0x40 |
| Registers.AddressesFitSevenBits | inc/MAX30003.h:18-84 | every register address is below 0x80, so the command flag can take bit 0 |
| Transport.Spi.constructor | inc/spi.h:24-34 | a zeroed handle on a bus with an empty log and the given replies |
| Transport.Spi.Write | src/spi.c:155-177 | logs one transfer of the frame; `RET_CODE_SPI_WRITE_ERR` iff the ioctl fails |
| Transport.Spi.Read | src/spi.c:130-153 | logs the command byte; on success copies exactly `len` bytes, on failure leaves the buffer alone and returns `RET_CODE_SPI_READ_ERR` |
| Protocol.Command | src/MAX30003.c:71 | the address moves up one bit and the flag takes bit 0 |
| Protocol.WriteFrameLayout | src/MAX30003.c:76-90 | the frame carries the write command and, big-endian in bytes 1..3, the low 24 bits of the data |
| Protocol.HighBitsNeverSent | src/MAX30003.c:85-87 | bits above 23 never reach the wire |
| Protocol.WriteFrameInjective | src/MAX30003.c:76-90 | two writes to one register give the same frame iff their low 24 bits agree |
| Protocol.WriteReg | src/MAX30003.c:76-90 | sends exactly the write frame and passes the transport's code through |
| Protocol.ReadReg | src/MAX30003.c:66-74 | clocks out the read command; 4 bytes arrive on success and nothing changes on failure |
| Protocol.ToInt32 | src/MAX30003.c:145 | two's-complement reinterpretation: non-negative iff below 2^31, and equal to the input or to the input less 2^32 |
| Protocol.FifoWordValue | src/MAX30003.c:135-145 | the masked third byte is always zero, so the word is `b0 * 2^24 + b1 * 2^16` |
| Protocol.DecodePointValue | src/MAX30003.c:124-148 | the sample is that word in two's complement: a multiple of 2^16, negative iff bit 7 of byte 0 is set, zero iff bytes 0 and 1 are |
| Protocol.DecodeIgnoresByte2 | src/MAX30003.c:139-143 | byte 2 never affects the sample |
| Protocol.GetEcgPoint | src/MAX30003.c:124-148 | one ECG_FIFO read; zero when the read fails, otherwise the decoded sample |
| Protocol.StatusOf | src/MAX30003.c:47-52 | the interrupt flag is bit 7 of status byte 0; the overflow flag is bit 6 |
| Protocol.FifoFlag | src/MAX30003.c:41-54 | 1 iff bit 7 of status byte 0 is set, 0 otherwise |
| Protocol.OverflowDoesNotMatter | src/MAX30003.c:47-49 | the overflow bit never changes the result |
| Protocol.CheckFifoPresent | src/MAX30003.c:41-54 | one STATUS read whose code is ignored; the flag of status byte 0, or 0 when the read fails |
| Protocol.SwReset | src/MAX30003.c:56-59 | sends the zero write frame to SW_RST |
| Protocol.Synch | src/MAX30003.c:61-64 | sends the zero write frame to SYNCH |
| Max30003.EcgSetTimeout | src/MAX30003.c:150-159 | a null handle gives `RET_CODE_INVALID_PARAMS`; otherwise the timeout is stored |
| Max30003.EcgSetDataLen | src/MAX30003.c:192-206 | a null handle gives invalid-params; otherwise the length is stored as `int32_t` and a fresh array of that many points is allocated, or `RET_CODE_ALLOC_FAIL` |
| Max30003.EcgInitHandle | src/MAX30003.c:167-190 | a null handle gives `RET_CODE_NULL_PTR`; otherwise defaults are loaded, the count is zeroed, the length is 1024, and the allocation's outcome is returned |
| Max30003.InitFramesCarryTheRegisters | src/MAX30003.c:92-107 | two handles upload the same eight frames iff their six images agree in the low 24 bits |
| Max30003.WriteChainMeans | src/MAX30003.c:92-107 | a `CONTINUE_ON_SUCCESS` chain sends frames up to and including the first refused one, nothing after it, and succeeds iff none is refused |
| Max30003.UploadIsWriteChain | src/MAX30003.c:92-107 | the init sequence is that chain over reset, the six images and synch |
| Max30003.UploadMeans | src/MAX30003.c:92-107 | on a bus that acknowledges `a` transfers in a row, init sends the first `min(a+1, 8)` frames and succeeds iff `a >= 8` |
| Max30003.Max30003Init | src/MAX30003.c:92-107 | the bus and the code are exactly those of the fail-fast upload |
| Acquisition.EffectiveTimeout | src/MAX30003.c:220-223 | a zero timeout becomes 20 s; any other is kept |
| Acquisition.MeasureStep | src/MAX30003.c:241-259 | one loop pass: poll once and store the sample iff it is non-zero |
| Acquisition.PollsOnTheBus | src/MAX30003.c:255-256 | `k` polls log `k` STATUS/ECG_FIFO command pairs and use up two replies each |
| Acquisition.MeasureFromPolls | src/MAX30003.c:241-259 | after some `k` polls, no more than clock readings are left, the bus has seen exactly those polls and the samples are the earlier ones followed by the polls' non-zero decoded samples, in order |
| Acquisition.MeasureFromMeans | src/MAX30003.c:241-271 | the loop only appends non-zero samples, at most 1024 in all; it succeeds iff it has 1024 and otherwise returns `RET_CODE_ERROR`; what it appends are exactly the non-zero samples of the polls the bus has seen, in order |
| Acquisition.MeasureMeans | src/MAX30003.c:208-273 | the same guarantees for a whole measurement starting with no samples: the stored samples are the non-zero samples of the first `k` polls, in order |
| Acquisition.MeasureFromStops | src/MAX30003.c:243-254 | an unfinished loop whose clock reading fails or is past the timeout returns `RET_CODE_ERROR` with the samples and the bus unchanged |
| Acquisition.PolledPointKept | src/MAX30003.c:256-259 | a poll stores a sample exactly when its FIFO reply is an acknowledgement whose bytes 0 and 1 are not both zero |
| Acquisition.MeasureFromFills | src/MAX30003.c:241-259 | progress: when the next polls deliver the missing samples and the clock readings are in time, the loop succeeds with exactly those samples after exactly those polls |
| Acquisition.MeasureFills | src/MAX30003.c:216-273 | a measurement whose first 1024 polls all deliver a sample and whose clock stays in time succeeds with exactly those 1024 samples |
| Acquisition.DropRepeat | src/MAX30003.c:255-256 | skipping `j` of `n` identical replies leaves `n - j` of them |
| Acquisition.PolledPointsRepeat | src/MAX30003.c:255-256 | polls against a bus that always gives the same reply all decode that reply's sample |
| Acquisition.ConstantSampleFills | src/MAX30003.c:208-273 | with a fixed non-zero sample on every reply and a steady clock, the measurement fills exactly 1024 entries with that sample, uses up every reply and succeeds, whatever the timeout |
| Acquisition.StatusIsIgnored | src/MAX30003.c:255-259 | the STATUS reply never changes the samples, the code or the log |
| Acquisition.TimeoutMeaning | src/MAX30003.c:250 | with unsigned wrap, a non-negative timeout expires after more than that many seconds; a negative one not within 2^31 seconds |
| Acquisition.MeasureInto | src/MAX30003.c:216-271 | on a valid handle: the timeout is defaulted; bus, code and stored samples are exactly those of `Measure`; the array beyond the count is untouched |
| Acquisition.EcgGetData | src/MAX30003.c:208-273 | a null handle gives invalid-params with no bus traffic; otherwise as `MeasureInto` |
| Options.IsNumber | src/get_opt_parser.c:897-904 | 1 iff every character is a digit, 0 otherwise |
| Options.CheckDigitOpt | src/get_opt_parser.c:906-922 | null-ptr iff no argument, invalid-params iff some non-digit, success iff all digits |
| Options.ApplyOpsStayInside | inc/common_check.h:29-30 | macros whose masks lie in a field leave every bit outside it unchanged |
| Options.EnableOpsInside | src/get_opt_parser.c:486-504 | an enable-style switch masks only its field |
| Options.EcgOpsInside | src/get_opt_parser.c:333-395 | the `g`, `S` and `H` switches mask only bits of their CNFG_ECG fields |
| Options.InterruptOpsInside | src/get_opt_parser.c:397-484 | the `e`, `p`, `a` and `f` switches mask only bits of their MNGR_INT fields |
| Options.GeneralOpsInside | src/get_opt_parser.c:566-622 | the `m`, `v`, `r` and `i` switches mask only bits of their CNFG_GEN fields |
| Options.CalFreqOpsInside | src/get_opt_parser.c:690-726 | the `F` switch masks only the FCAL field and bits 16-18 |
| Options.EmuxOpsInside | src/get_opt_parser.c:809-887 | the `N`, `t` and `T` switches mask only bits of their CNFG_EMUX fields |
| Options.EnableOptionOpsInside | src/get_opt_parser.c:486-807 | every enable-style option masks only its field |
| Options.MultiValuedOptionOpsInside | src/get_opt_parser.c:333-887 | every multi-valued option masks only its field |
| Options.OptionOpsInside | src/get_opt_parser.c:333-887 | for every register option and every value, the macros stay in the option's field |
| Options.RegisterUpdate | src/get_opt_parser.c:333-887 | an option changes only its target image, and in it only the bits of its field |
| Options.ApplyOptions | src/get_opt_parser.c:276-892 | the loop leaves settings, images, recorded values and outcome exactly as `ParseFrom` prescribes |
| Options.ParseOpts | src/get_opt_parser.c:247-895 | bad `argc` gives invalid-params and a null `argv`, `spi` or handle gives null-ptr, both touching nothing; otherwise the name and speed defaults are set and the option loop runs |
| Options.UnknownValueActsAsDefault | src/get_opt_parser.c:333-887 | except for `r` and `N`, an unlisted value issues exactly the macros of the fallback its `default` announces |
| Options.RbiasUnknownKeepsRegisters | src/get_opt_parser.c:644-664 | an unlisted `-r` value edits nothing, whereas the announced 50 MOhm setting clears the field |
| Options.InputSwitchUnknownConnectsBoth | src/get_opt_parser.c:825-832 | an unlisted `-N` value leaves both input-switch bits clear |
| Options.InputSwitchNeverIsolatesPositive | src/get_opt_parser.c:809-835 | `-N 1` and `-N 2` both set bit 20, and no value sets bit 21 |
| Options.NoCalibrationSelectsVcaln | src/get_opt_parser.c:837-887 | `-t 4` and `-T 4` set the whole selection field, which is the VCALN code |
| Options.GainCodesAccumulate | src/get_opt_parser.c:333-354 | `-g 40` then `-g 80` leaves the 160 V/V gain code |
| Options.SlowCalibrationCodesOutliveReset | src/get_opt_parser.c:690-726 | after `-F 250` then `-F 256000`, the FCAL field is clear but bits 16-18 still hold the 250 mHz code |
| Options.ParseSucceedsIffAllAccepted | src/get_opt_parser.c:305-891 | the loop returns success iff every option is accepted; it returns only success or null-ptr, and exits only with `EXIT_FAILURE` or a digit-check code |
| Options.OptionStepFrame | src/get_opt_parser.c:310-887 | bus options keep images and recorded values; register options keep bus settings |
| Options.RegisterUpdateTouches | src/get_opt_parser.c:333-887 | a register option changes each image only inside its own field there, and images it does not target not at all |
| Options.OptionStepNumeric | src/get_opt_parser.c:319-887 | an accepted numeric option had an argument and takes the numeric step with its value |
| Options.NumericStepTouches | src/get_opt_parser.c:333-887 | the numeric step of a register option changes each image only inside that option's own field there |
| Options.OptionStepTouches | src/get_opt_parser.c:310-887 | one accepted option changes each image only inside its own field there |
| Options.OptionStepKeepsBus | src/get_opt_parser.c:333-887 | an accepted option other than `-D`, `-L`, `-s` or `-b` keeps the bus settings |
| Options.ParseFromTouches | src/get_opt_parser.c:305-891 | over a whole run, each image differs from where it started only inside the union of the fields of the register options given for it |
| Options.ParseFromKeepsBus | src/get_opt_parser.c:305-891 | a run with no `-D`, `-L`, `-s` or `-b` option leaves the bus settings unchanged |
| Options.BitsKeepLowByte | src/get_opt_parser.c:324-327 | `-b` stores the low byte of the number typed |
| Options.LsbFirstSetsOneFlag | src/get_opt_parser.c:329-331 | `-L` sets the LSB-first flag and no other bit |

## Left out

- The hardware and the kernel are not modelled:
  - the SPI transfers are a log of frames and a given list of replies;
  - `clock_gettime` is a given list of readings;
  - `malloc` succeeding is a parameter.
- `spi_init`, `spi_free` and the `xfer` set-up in `src/spi.c` are not part of this model. Only `spi_read` and `spi_write` are modelled, through their effect on the log.
- `getopt_long` is not modelled. `parse_opts` receives the options it would deliver as a sequence of (character, argument) pairs, and a null `argv` is `None`.
  - Because of this, the optstring's quirks do not arise: it lists `e` twice and has no `E`, so `E` is reachable only as `--ecg_en`.
- `exit` (from `print_usage` or `CHECK_CODE_ERR`) is modelled as the outcome `Exited(status)`. The process ending is not modelled.
- The usage text of `-H` gives 1 as 0.5 Hz and 2 as bypass. The code does the opposite (`DHP_BYPASS_VAL` is 1), and the model follows the code.
- Logging, `print_usage`'s text and `ecg_print_data` are not modelled: they print only.
- `ecg_create_handle` and `ecg_delete_handle` are not modelled: they only allocate and free.
- The `CHECK_DATA_ON_TIME_INTERVAL` block of `ecg_get_data` is not modelled: it is compiled out.
- Options.AtoiU32: models `atoi` only on digit strings, the only ones `parse_opts` passes it. Beyond `int` range the C result is undefined; the model takes the value modulo 2^32.
- Protocol.GetEcgPoint: the source reads 4 bytes into a 3-byte buffer. The model gives the read a 4-byte buffer and does not model the overrun.
- Acquisition.MeasureInto: requires an array of at least 1024 samples. The loop fills up to 1024 whatever `data_len` says, and the model does not capture an overrun of a shorter array.
- Acquisition.MeasureMeans: the clock is a finite list of readings and a list that runs out ends the run like a failing clock, with `RET_CODE_ERROR`; a run the source would keep going indefinitely (for example a negative timeout, which does not expire for about 68 years, on a bus that never yields a non-zero sample) is therefore not modelled, and nothing is proved about non-termination.
- Acquisition.EcgGetData and Options.ParseOpts: each is split into a null-checking wrapper and a worker on valid handles (`MeasureInto`, `ApplyOptions`).
- Max30003.EcgInitHandle: `memset(ecg_data, 0, sizeof(ecg_data))` clears only as many bytes as a pointer holds; in the packed `ecg_data_t` that is `data_ID` and, on a 64-bit target, the low half of `data_arr` (on a 32-bit target `data_ID` alone). `ecg_set_data_len` overwrites `data_arr` straight afterwards, so the model's clearing of the count and the array reference is unobservable there; the timeout and the recorded option values keep their old contents, as in the source.
