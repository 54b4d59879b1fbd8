# FMCDAQ2 bring-up, platform GPIO layer and AD713x IIO adapter, in Dafny

This project models three pieces of the Analog Devices no-OS code base and proves what they do:

- **The FMCDAQ2 reference design** (`fmcdaq2/fmcdaq2.c`), in two parts.
  - `fmcdaq2_config.dfy` covers the sample-rate preset `fmcdaq2_reconfig`. Its input is a selector character. It writes the AD9523 clock chip's platform data, the AD9144 DAC's and AD9680 ADC's init records, and two transceiver records, all through pointers; the pointers are modelled as `Ref` cells.
  - `fmcdaq2_main.dfy` covers `main`. It fills the compiled defaults (including the lane-crossbar `for` loop), calls the preset, and then makes a fixed sequence of driver calls. That sequence is recorded as a trace of events, and the ordering properties are lemmas about the trace. `main` is modelled twice: as written, and with the two defects under "## Findings" corrected.
- **The platform layer** (`common_drivers/platform_drivers/platform_drivers.c`), in `platform_drivers.dfy`.
  - The hardware is a map from address to 32-bit word, held by a `Hal` object. The object also fixes the backend the build compiles in: Zynq PS7, Zynq PSU, Nios II, MicroBlaze, or none.
  - Covered operations: GPIO get/remove, set/get value, range set/get, the 16-bit register write, `do_div`, and the `ad_pow2` loop.
  - Each method is proved against a pure function on the register map. Round-trip and "other bits unchanged" lemmas are proved about those functions.
- **The AD713x IIO adapter** (`iio/iio_ad713x/iio_ad713x.c`), in `iio_ad713x.dfy`.
  - The instance and device records are classes, filled by `Init` and `CreateDevice`. `GetXml` makes a zero-terminated copy of the XML description.
  - `ReadDev` is the `read_dev` stub loop, writing into an `array`. It is proved against `Written`, which lists the values the loop stores. Lemmas about `Written` give the round-robin channel counter, the values that are stored, their order, and their count.

`common.dfy` holds `Option`, a pointer value `Ptr` and the return codes.

Properties of the code that the model follows, and that a reader may not expect:

- Devices are removed in the order AD9144, AD9523, AD9680 (fmcdaq2.c:704-706), which is not the reverse of their setup. The "Recommended … link startup sequence" comment at fmcdaq2.c:588-599 orders start-up only.
- Every driver return value is ignored, so no stage is gated on an earlier stage's status. This includes the clock chip.
- The preset is applied once, to freshly filled defaults. The preset functions themselves layer on whatever record they are given.
- A range write ORs in `data << ppos` without masking it. So "a range write leaves bits outside the range alone" holds only for data that fits in `num_pins` bits (`RangeDataBeyondWidthSpills`).
- A descriptor of an uncompiled backend gives -1 rather than an error value of its own.

## Model

| member | source | states |
|---|---|---|
| PlatformDrivers.Hal.GpioGet | common_drivers/platform_drivers/platform_drivers.c:63-94 | a pin below 32 fails with FAILURE and no descriptor. A failed allocation also fails. Otherwise the result is SUCCESS and a descriptor with the pin number, id 0 and the build's backend tag; success holds exactly when a descriptor is returned |
| PlatformDrivers.Hal.GpioRemove | common_drivers/platform_drivers/platform_drivers.c:101-106 | always returns SUCCESS |
| PlatformDrivers.Hal.GpioDirectionInput | common_drivers/platform_drivers/platform_drivers.c:113-120 | returns 0 and changes no register |
| PlatformDrivers.Hal.GpioDirectionOutput | common_drivers/platform_drivers/platform_drivers.c:130-142 | returns 0 and changes no register |
| PlatformDrivers.Hal.GpioGetDirection | common_drivers/platform_drivers/platform_drivers.c:152-164 | returns 0 and changes no register |
| PlatformDrivers.Hal.PrepareOutput | common_drivers/platform_drivers/platform_drivers.c:187-228 | the direction writes of a set, each a read-modify-write. PS7/PSU set the pin in the direction and output-enable registers, MicroBlaze clears it in the tri-state register, Nios II does nothing |
| PlatformDrivers.Hal.PrepareInput | common_drivers/platform_drivers/platform_drivers.c:256-292 | PS7/PSU clear the pin's bit in the direction register; the other backends touch nothing |
| PlatformDrivers.Hal.Drive | common_drivers/platform_drivers/platform_drivers.c:187-228 | the direction writes, then the data register becomes `(old & ~mask) \| bits` |
| PlatformDrivers.Hal.GpioSetValue | common_drivers/platform_drivers/platform_drivers.c:174-234 | on the compiled backend: returns 0 and the registers become the backend's set-value write. On any other tag: returns -1 and the registers are unchanged |
| PlatformDrivers.Hal.GpioGetValue | common_drivers/platform_drivers/platform_drivers.c:244-298 | on the compiled backend: returns 0, makes the PS7/PSU direction change, and reports bit `number - 32` of the data register. Otherwise: -1, no value written, no register changed |
| PlatformDrivers.Hal.GpioSetRange | common_drivers/platform_drivers/platform_drivers.c:304-366 | a start pin below 32, or no compiled backend, gives -1 with no register access. Otherwise it returns 0 and writes `data << ppos` under `((1 << num_pins) - 1) << ppos` |
| PlatformDrivers.Hal.GpioGetRange | common_drivers/platform_drivers/platform_drivers.c:372-425 | the same failures with no register access and no value written. Otherwise it returns 0 and reports `(pdata & pmask) >> ppos` after the PS7/PSU direction change |
| PlatformDrivers.Hal.RegWrite16 | common_drivers/platform_drivers/platform_drivers.c:443-453 | one read-modify-write of the word at `addr & ~3` |
| PlatformDrivers.ControlRegsExcludeData | common_drivers/platform_drivers/platform_drivers.c:187-228 | the data register is never one of the backend's direction registers |
| PlatformDrivers.OutputRegsFrame | common_drivers/platform_drivers/platform_drivers.c:187-228 | the direction part of a write changes only the backend's control registers |
| PlatformDrivers.DriveRegsFrame | common_drivers/platform_drivers/platform_drivers.c:187-228 | a write changes no word other than the data and control registers |
| PlatformDrivers.DriveRegsData | common_drivers/platform_drivers/platform_drivers.c:193-195 | after a write, the data register holds the masked merge of the old word and the new bits |
| PlatformDrivers.DriveRegsDirection | common_drivers/platform_drivers/platform_drivers.c:187-228 | PS7/PSU end with the mask set in both direction and output-enable registers; MicroBlaze ends with it cleared in the tri-state register |
| PlatformDrivers.ZynqDriveDirection | common_drivers/platform_drivers/platform_drivers.c:189-192 | the Zynq case of the above |
| PlatformDrivers.SetValueSetsBit | common_drivers/platform_drivers/platform_drivers.c:183-195 | a level of 0 or 1 becomes bit `number - 32` of the data register |
| PlatformDrivers.SetValueKeepsOtherBits | common_drivers/platform_drivers/platform_drivers.c:183-195 | every other bit of the data register is unchanged |
| PlatformDrivers.SetThenGetValue | common_drivers/platform_drivers/platform_drivers.c:174-298 | loopback: get after set(v) reports v, on every backend |
| PlatformDrivers.SetThenGetLoopback | common_drivers/platform_drivers/platform_drivers.c:174-298 | the loopback through the `Hal` object's two methods: on a dispatching descriptor both calls return SUCCESS and the read reports the level set |
| PlatformDrivers.RangeMaskBits | common_drivers/platform_drivers/platform_drivers.c:317-318 | bit k of the range mask is set if and only if `ppos <= k < ppos + num_pins` |
| PlatformDrivers.SetRangeOnlyMasked | common_drivers/platform_drivers/platform_drivers.c:316-328 | a range write of data below `2^num_pins` changes no data bit outside the range |
| PlatformDrivers.RangeDataBeyondWidthSpills | common_drivers/platform_drivers/platform_drivers.c:318-328 | data that does not fit is not masked: a one-pin write of 3 at position 0 sets bit 1, which lies outside the mask |
| PlatformDrivers.SetThenGetRange | common_drivers/platform_drivers/platform_drivers.c:304-425 | round trip: on every backend and for all data, a range read after a range write reports `data & ((1 << num_pins) - 1)`, so data that fits in `num_pins` bits comes back unchanged |
| PlatformDrivers.RangeReadOfWrite | common_drivers/platform_drivers/platform_drivers.c:304-425 | on every backend, a range read after a range write sees the old data word merged with `data << ppos` under the range mask; the PS7/PSU direction clear does not touch it |
| PlatformDrivers.FieldOfMerge | common_drivers/platform_drivers/platform_drivers.c:318-393 | the word-level round trip of the masked merge and the masked shift: the field read back is the data's low `num_pins` bits |
| PlatformDrivers.OnePinRangeIsPin | common_drivers/platform_drivers/platform_drivers.c:184-318 | a one-pin range mask is the single pin's mask |
| PlatformDrivers.RangeMaskIsLowMask | common_drivers/platform_drivers/platform_drivers.c:511-522 | for 1 to 31 pins, the range mask at position 0 is the mask `ad_pow2` builds |
| PlatformDrivers.Reg16Aligned | common_drivers/platform_drivers/platform_drivers.c:448-449 | an aligned address with data below 2^16 replaces the low half and keeps the high half |
| PlatformDrivers.Reg16Unaligned | common_drivers/platform_drivers/platform_drivers.c:450-451 | an unaligned address replaces the high half and keeps the low half |
| PlatformDrivers.Reg16Frame | common_drivers/platform_drivers/platform_drivers.c:447-452 | no word other than `addr & ~3` changes |
| PlatformDrivers.DoDiv | common_drivers/platform_drivers/platform_drivers.c:430-438 | `old n == quotient * base + remainder` and `remainder < base` |
| PlatformDrivers.AdPow2 | common_drivers/platform_drivers/platform_drivers.c:511-522 | the loop returns `number` low bits set for 1 to 31, all 32 bits for 32 or more, and 1 for 0 (the loop does not run) |
| PlatformDrivers.LowMaskStep | common_drivers/platform_drivers/platform_drivers.c:517-518 | one iteration's `(mask << 1) ^ 1` turns the k-bit mask into the (k+1)-bit mask |
| IioAd713x.Iio713x.constructor | iio/iio_ad713x/iio_ad713x.c:142 | `calloc`: every field zero |
| IioAd713x.IioDevice.constructor | iio/iio_ad713x/iio_ad713x.c:191 | `calloc`: every field zero |
| IioAd713x.Init | iio/iio_ad713x/iio_ad713x.c:139-153 | success: a fresh instance whose six fields are those of the init record. A failed allocation: FAILURE and no instance |
| IioAd713x.Remove | iio/iio_ad713x/iio_ad713x.c:160-165 | always SUCCESS |
| IioAd713x.CreateDevice | iio/iio_ad713x/iio_ad713x.c:186-201 | a fresh device with the given name and channel count and null attribute and channel tables, or null on allocation failure |
| IioAd713x.DeleteDevice | iio/iio_ad713x/iio_ad713x.c:172-178 | always SUCCESS, a null device included |
| IioAd713x.CopyZeroTerminated | iio/iio_ad713x/iio_ad713x.c:238-242 | `calloc(strlen + 1)` plus `memcpy`: the string followed by one zero |
| IioAd713x.GetXml | iio/iio_ad713x/iio_ad713x.c:236-245 | success: a fresh buffer equal to the device description plus a terminating zero. Allocation failure: `-ENOMEM` and no buffer |
| IioAd713x.SelectedChannels | iio/iio_ad713x/iio_ad713x.c:221 | the channels below c that the mask selects number at most c |
| IioAd713x.HWeight8 | iio/iio_ad713x/iio_ad713x.c:213-214 | the weight of the low 8 bits is at most 8 |
| IioAd713x.ChannelAt | iio/iio_ad713x/iio_ad713x.c:227-230 | the channel counter stays below the channel count |
| IioAd713x.ChannelAtIsMod | iio/iio_ad713x/iio_ad713x.c:227-230 | at iteration i the counter is `i % num_channels` |
| IioAd713x.WrittenPrefix | iio/iio_ad713x/iio_ad713x.c:218-225 | the values stored so far only grow, by at most one per iteration |
| IioAd713x.WrittenBelow | iio/iio_ad713x/iio_ad713x.c:221-224 | while indices fit in 16 bits, each stored value is an earlier iteration's index |
| IioAd713x.WrittenIncreasing | iio/iio_ad713x/iio_ad713x.c:221-224 | while indices fit in 16 bits, the stored values strictly increase |
| IioAd713x.WrittenExactlySelected | iio/iio_ad713x/iio_ad713x.c:218-225 | iteration i's index is stored if and only if its channel's bit is set in `ch_mask` |
| IioAd713x.ChannelAtInScan | iio/iio_ad713x/iio_ad713x.c:227-230 | c iterations after channel 0, the counter is at c |
| IioAd713x.WrittenFromScanStart | iio/iio_ad713x/iio_ad713x.c:218-230 | from the start of a scan, c iterations store one value per selected channel below c |
| IioAd713x.ScanEndsAtChannelZero | iio/iio_ad713x/iio_ad713x.c:227-230 | after t whole scans the counter is back at channel 0 |
| IioAd713x.WrittenPerScan | iio/iio_ad713x/iio_ad713x.c:218-230 | t whole scans store t times the number of selected channels |
| IioAd713x.WholeScansFillBuffer | iio/iio_ad713x/iio_ad713x.c:213-225 | suppose the mask selects `hweight8(ch_mask)` of the device's channels and the request is whole scans. Then the loop stores exactly `bytes_count / 2` values |
| IioAd713x.EightChannelsWholeScans | iio/iio_ad713x/iio_ad713x.c:213-225 | the same, for every non-empty mask on an eight-channel device |
| IioAd713x.ReadDev | iio/iio_ad713x/iio_ad713x.c:203-234 | returns `bytes_count`. The buffer starts with exactly the values the loop stores, and every later slot is untouched. The offset does not matter |
| IioAd713x.FillSelected | iio/iio_ad713x/iio_ad713x.c:218-231 | the `for` loop: after `samples` iterations the buffer's first j slots are the stored values and the rest are untouched |
| IioAd713x.ReadDevOverruns | iio/iio_ad713x/iio_ad713x.c:213-225 | a two-byte request on a five-channel device with mask 3 makes two 16-bit stores |
| IioAd713x.ReadDevBounded | iio/iio_ad713x/iio_ad713x.c:203-234 | the corrected read_dev returns `bytes_count` and stores a prefix of the as-written values, never past `bytes_count / 2` |
| IioAd713x.FillSelectedBounded | iio/iio_ad713x/iio_ad713x.c:218-231 | the corrected loop stops after `samples` iterations or the buffer's size, whichever comes first |
| IioAd713x.BoundedAgreesWhenInBounds | iio/iio_ad713x/iio_ad713x.c:218-225 | whenever the code as written stays in bounds, the corrected loop stores all of it |
| Fmcdaq2Config.Reconfig | fmcdaq2/fmcdaq2.c:96-239 | returns 0, and each of the five records becomes the selected mode's preset of its old value |
| Fmcdaq2Config.SetDividers | fmcdaq2/fmcdaq2.c:128-144 | the eight divider writes set both converters' four dividers and touch nothing else |
| Fmcdaq2Config.ClockPresetKeepsOutputs | fmcdaq2/fmcdaq2.c:115-236 | every mode keeps eight clock outputs with their output numbers |
| Fmcdaq2Config.OperatingModeSettings | fmcdaq2/fmcdaq2.c:126-220 | modes '2' to '4' set M1, all eight dividers and both lane rates to the table's values, whatever they were before |
| Fmcdaq2Config.Mode4Values | fmcdaq2/fmcdaq2.c:126-150 | M1 = 5; dividers 2/1/128/128 on both sides; lanes 6000000; transceiver references 300000. Nothing else in the clock record changes but the dividers; the converter records change only in their lane rate; under the Xilinx build each transceiver record is the table's whole row |
| Fmcdaq2Config.Mode3Values | fmcdaq2/fmcdaq2.c:161-185 | M1 = 3; dividers 4/2/256/256 on both sides; lanes 5000000; references 250000, with the same frame as Mode4Values |
| Fmcdaq2Config.Mode2Values | fmcdaq2/fmcdaq2.c:196-220 | DAC: dividers 2/1/128/128, lane 10000000, reference 500000. ADC: 4/2/256/256, 5000000, 250000, with the same frame as Mode4Values |
| Fmcdaq2Config.Mode5ChangesOnlyFiveFields | fmcdaq2/fmcdaq2.c:116-125 | exactly five fields change: the DAC device clock divider becomes 10, the PLL reference 100000, interpolation 2, the PLL is enabled at 2000000. Lane rates and transceivers are untouched |
| Fmcdaq2Config.DefaultModeSetsOnlyRefRates | fmcdaq2/fmcdaq2.c:231-235 | any other selector only sets both transceiver reference rates to 500000 |
| Fmcdaq2Config.XilinxPllChoice | fmcdaq2/fmcdaq2.c:151-229 | under the Xilinx build, CPLL 1/1 in '4' and '3' and 0 (DAC)/1 (ADC) in '2'. LPM takes the listed values, and the output clock is 4 |
| Fmcdaq2Config.NonXilinxKeepsXcvrOptions | fmcdaq2/fmcdaq2.c:151-229 | without the Xilinx build, only the transceivers' rates are written |
| Fmcdaq2Config.PresetIdempotent | fmcdaq2/fmcdaq2.c:115-236 | choosing the same mode twice gives the same records as choosing it once |
| Fmcdaq2Config.PresetKeepsVco | fmcdaq2/fmcdaq2.c:115-236 | no mode changes R2 or the PLL2 VCO frequency |
| Fmcdaq2Main.IdentityXbar | fmcdaq2/fmcdaq2.c:466-467 | eight lanes, lane n mapped to n |
| Fmcdaq2Main.FillDefaults | fmcdaq2/fmcdaq2.c:384-500 | the clock, DAC, ADC and transceiver init records as `main` fills them. This includes the crossbar loop, and the ADC transceiver's `cpll_enable` is never set |
| Fmcdaq2Main.MainAsWritten | fmcdaq2/fmcdaq2.c:244-715 | returns 0; the trace is the bring-up of the as-written records |
| Fmcdaq2Main.MainCorrected | fmcdaq2/fmcdaq2.c:244-715 | returns 0; the trace is the bring-up of the corrected records |
| Fmcdaq2Main.RunBringUp | fmcdaq2/fmcdaq2.c:568-712 | the driver calls from claiming the GPIOs to releasing them |
| Fmcdaq2Main.ResetLines | fmcdaq2/fmcdaq2.c:568-582 | four claims, quiescent levels 0/0/0/1, 5 ms, active levels 1/1/1/0 |
| Fmcdaq2Main.StartLinks | fmcdaq2/fmcdaq2.c:586-627 | clocks, ADC, TX link, the two transceivers in the order the DAC's `cpll_enable` picks, RX link, DAC |
| Fmcdaq2Main.TestPaths | fmcdaq2/fmcdaq2.c:630-698 | status reads, the cores, then the DAC's SED, PN23/PRBS7 and PN31/PRBS15 tests, the ADC's PN9 and PN23, DDS, and the ADC test off |
| Fmcdaq2Main.ReleaseAll | fmcdaq2/fmcdaq2.c:704-712 | the three device removals, then the four GPIO removals |
| Fmcdaq2Main.MainTraceOrdered | fmcdaq2/fmcdaq2.c:387-712 | the whole trace follows the stage order: clock init, GPIO claims, quiescent levels, wait, active levels, clock setup, ADC, TX link, transceivers, RX link, DAC, tests, releases |
| Fmcdaq2Main.MainTraceMembers | fmcdaq2/fmcdaq2.c:568-712 | every control line's claim, both levels and release, the wait, every setup call and every removal occur in the trace |
| Fmcdaq2Main.GpioResetBeforeClocks | fmcdaq2/fmcdaq2.c:573-586 | each line's quiescent level precedes the 5 ms wait, the active level follows it, and no control line changes level after the clock setup |
| Fmcdaq2Main.StageOrder | fmcdaq2/fmcdaq2.c:586-627 | clock setup, ADC setup, TX link, each transceiver, RX link, DAC setup, in that order |
| Fmcdaq2Main.GpioClaimedAndReleased | fmcdaq2/fmcdaq2.c:568-712 | each line is claimed before it is driven and released after its last level |
| Fmcdaq2Main.DevicesReleased | fmcdaq2/fmcdaq2.c:586-706 | each device is removed after its setup |
| Fmcdaq2Main.PhyLayerFramed | fmcdaq2/fmcdaq2.c:613-621 | the transceiver calls occur only in the physical-layer block |
| Fmcdaq2Main.PhyLayerOrder | fmcdaq2/fmcdaq2.c:614-620 | in the branch, the DAC transceiver comes first if and only if the DAC's `cpll_enable` is 0, and the ADC's first otherwise |
| Fmcdaq2Main.PhyOrder | fmcdaq2/fmcdaq2.c:614-620 | the same if-and-only-if, over the whole trace, in both directions |
| Fmcdaq2Main.DefaultsTakeDacFirst | fmcdaq2/fmcdaq2.c:437-498 | as written, every selector and every stack content give the DAC-first order |
| Fmcdaq2Main.XcvrInitIgnoresPreset | fmcdaq2/fmcdaq2.c:526-530 | as written, the transceiver init records do not depend on the selector and keep 10 Gbps lanes |
| Fmcdaq2Main.DacDefaults | fmcdaq2/fmcdaq2.c:466-487 | the crossbar is the identity and the preset keeps it. Each short-pattern row alternates the low and high halves of its channel's pattern, and the row's first two samples join back to the pattern word |
| Fmcdaq2Main.DefaultVco | fmcdaq2/fmcdaq2.c:413-421 | the default PLL2 runs at 3 GHz under every selector |
| Fmcdaq2Main.CorrectedRatesMode4 | fmcdaq2/fmcdaq2.c:126-159 | corrected, mode '4' gives the menu's rates and matching lane and reference rates |
| Fmcdaq2Main.CorrectedRatesMode3 | fmcdaq2/fmcdaq2.c:161-194 | the same for mode '3' |
| Fmcdaq2Main.CorrectedRatesMode2 | fmcdaq2/fmcdaq2.c:196-229 | the same for mode '2' |
| Fmcdaq2Main.CorrectedRatesMode5 | fmcdaq2/fmcdaq2.c:116-125 | the same for mode '5': the DAC PLL's reference is the DAC device clock |
| Fmcdaq2Main.CorrectedRatesDefault | fmcdaq2/fmcdaq2.c:231-235 | the same for the default mode |
| Fmcdaq2Main.CorrectedRatesMatchMenu | fmcdaq2/fmcdaq2.c:105-111 | corrected, every selector gives the sample rates the menu announces. Each transceiver's lane rate equals its converter's, and its reference is its side's FPGA clock |
| Fmcdaq2Main.AsWrittenRatesMismatch | fmcdaq2/fmcdaq2.c:526-530 | as written, mode '4' gives 6 Gbps converters and 300 MHz FPGA clocks, but transceivers still set for 10 Gbps from 500 MHz; the rates do not match |
| Fmcdaq2Main.AdcCpllAsWritten | fmcdaq2/fmcdaq2.c:496-498 | as written, the ADC transceiver's `cpll_enable` is whatever the stack held, and the DAC's is 0 |
| Fmcdaq2Main.AdcCpllCorrected | fmcdaq2/fmcdaq2.c:496-498 | corrected, the ADC's `cpll_enable` is independent of the stack: 1 in modes '2' to '4', else 0 |
| Fmcdaq2Main.CorrectedPhyOrder | fmcdaq2/fmcdaq2.c:614-620 | corrected, the ADC transceiver goes first if and only if the mode is '3' or '4' |

## Left out

- The builds other than Xilinx for `main` (the Altera `xcvr_setup` branch, fmcdaq2.c:609-612), and the platform base-address blocks (fmcdaq2.c:327-378). These are configuration constants.
- The DMA set-up and the commented-out or `#if DMA_BUFFER` code (fmcdaq2.c:514-523, 669-671, 673-675, 679-686, 699-701): the DMA records are only written and never passed to a call that runs, and the rest is commented out or compiled out. The test calls in that stretch, lines 672, 688-690 and 698, are modelled by TestPaths.
- The SPI parameter records of `main` (fmcdaq2.c:248-291): constants handed to the drivers.
- The driver bodies (`ad9523_setup`, `ad9680_setup`, `ad9144_setup`, `adxcvr_init`, the JESD204 and AXI cores, the tests, `*_remove`): they are not part of this model. Each call is an event in the trace carrying the records it is given. Their return values are ignored by the code, so there is nothing to propagate.
- The effect of `ad9523_init` (fmcdaq2.c:387), which runs before the defaults are written: an event with no effect on the records.
- `ad9144_core->channels = &ad9144_channels[0]` (fmcdaq2.c:470) writes through an uninitialised pointer. The model hands the channel records to the data-setup events instead.
- `printf` and `getc`: the selector is a plain `char` input. The truncation of `getc`'s `int` to `uint8_t`, and hence end-of-file, is not modelled.
- The clock and link-rate arithmetic in RatesMatchMenu: the AD9523 output frequency as VCO / (M1 × divider) and ten lane bits per sample in 8b/10b framing are the model's own formulas; the drivers that compute them are not part of this model.
- `main`'s GPIO calls use a descriptor-plus-parameter `gpio_get` that is not the one in platform_drivers.c; in the trace they are events, not calls into the `Hal` model.
- `ad_uart_read`, `usleep`, `ad_platform_init`/`ad_platform_close` (platform_drivers.c:455-506): console and timer plumbing.
- Raw register primitives (`Xil_In32`, `Xil_Out32`, `IORD_32DIRECT`, `ad_reg_read`/`ad_reg_write`): a map from address to word in which an unwritten word reads as zero. Real peripherals, such as inputs sampled from a separate register, are not modelled.
- v1.c and v2.c: sketches with no behaviour to state.
- The XML text beyond its two-level structure: the copy is proved equal to the description, which lists the eight channels.
- Memory release (`free`): Dafny has no explicit deallocation, so Remove, DeleteDevice and GpioRemove only return their status.
- Hal.GpioSetValue, Hal.GpioGetValue: require the pin to lie in the 32-pin block, because beyond it the C shift `0x1 << ppos` is undefined.
- Hal.GpioSetRange, Hal.GpioGetRange: require `start_pin - 32 < 32` and `num_pins < 32` once the start pin is in the block, for the same reason.
- SetRangeOnlyMasked: needs `data < 2^num_pins`, because the C does not mask the data (RangeDataBeyondWidthSpills). SetRangeOnlyMasked and SetThenGetRange both need `ppos + num_pins <= 32`, so that the range lies inside the 32-bit word.
- DoDiv: requires a nonzero base (the C division is undefined there); `*n` updated in place becomes the returned quotient.
- ReadDev: requires a non-empty low-8-bit mask (the C divides by it) and at most 32 channels (`BIT(current_ch)`). It also requires a buffer that has room for every value the loop writes, which the C does not check (see "## Findings").
- ReadDev: computes `bytes_count * num_channels` and the offset scaling on unbounded naturals, without the `size_t` wrap-around of the C (iio_ad713x.c:213-216); with a 32-bit `size_t`, `bytes_count` 0x8000_0000 and eight channels the C product wraps to 0 and the loop does not run, while the model runs 2^30 iterations. Nor does it model the `uint32_t` loop index wrapping against a wider `samples`. So ReadDev, WholeScansFillBuffer and EightChannelsWholeScans describe the C loop only while `bytes_count * num_channels` fits in `size_t` and `samples` fits in 32 bits.
- Reconfig: requires the two transceiver pointers not to alias and the platform data to hold eight channel specs. The corrected `main` passes two distinct init records. As written, `main` passes the uninitialised pointers `ad9144_xcvr` and `ad9680_xcvr` (fmcdaq2.c:526-530), about which nothing is known; they could even be equal. MainAsWritten instead takes them to name two distinct scratch records (`u.dacXcvr`, `u.adcXcvr`), so aliasing between them is not modelled.
- Integer widths: the IIO loop index is unbounded and the stored value is truncated to 16 bits explicitly. Channel dividers, lane and reference rates are unbounded naturals; the values the code uses fit their C types.

## Findings

| source | as written | input that shows it | evidently intended | confidence | as-written member | corrected member |
|---|---|---|---|---|---|---|
| fmcdaq2/fmcdaq2.c:496-498 | the receive-path block sets `ad9144_xcvr_init.cpll_enable = 0` a second time; `ad9680_xcvr_init.cpll_enable` is never assigned and is whatever the stack held | any selector: the ADC transceiver's PLL choice is the uninitialised stack value | `ad9680_xcvr_init.cpll_enable = 0` | high, not executed | Fmcdaq2Main.AdcCpllAsWritten | Fmcdaq2Main.AdcCpllCorrected |
| fmcdaq2/fmcdaq2.c:526-530 | the preset gets the uninitialised `struct adxcvr *` pointers `ad9144_xcvr` and `ad9680_xcvr`, not the `adxcvr_init` records, so its lane, reference and PLL settings never reach `adxcvr_init` | selector '4': converters at 6 Gbps and FPGA clocks at 300 MHz, transceivers at 10 Gbps from 500 MHz | the preset edits `ad9144_xcvr_init` and `ad9680_xcvr_init` | high, not executed | Fmcdaq2Main.AsWrittenRatesMismatch | Fmcdaq2Main.CorrectedRatesMatchMenu |
| iio/iio_ad713x/iio_ad713x.c:213-225 | the loop runs `samples` iterations and stores one value per selected channel, with no bound on `j`. When `bytes_count` is not a whole number of scans it can store more than `bytes_count / 2` values. If `hweight8` counts only bits 0-7, as its name suggests (its body is not part of this model), a mask that selects channels above bit 7 does the same | `bytes_count` 2, five channels, `ch_mask` 3: two 16-bit stores into a two-byte buffer | stop after `bytes_count / 2` values | medium, not executed | IioAd713x.ReadDevOverruns | IioAd713x.ReadDevBounded |
