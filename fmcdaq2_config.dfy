/**
 * The FMCDAQ2 operating points: the records `fmcdaq2_reconfig` edits (the AD9523 clock chip's
 * platform data, the AD9144 DAC's and AD9680 ADC's init parameters, and the two transceiver
 * records), the table of the five sample-rate modes, and the preset itself.
 */
module Fmcdaq2Config {

  import opened Common

  /** `struct ad9523_channel_spec`: an output number and its divider. */
  datatype ChannelSpec = ChannelSpec(channelNum: nat, channelDivider: nat)

  /** The fields of `struct ad9523_platform_data` the board sets. */
  datatype Ad9523PlatformData = Ad9523PlatformData(
    numChannels: nat,
    channels: seq<ChannelSpec>,
    vcxoFreq: nat,
    spi3wire: nat,
    oscInDiffEn: nat,
    pll2ChargePumpCurrentNa: nat,
    pll2FreqDoublerEn: nat,
    pll2R2Div: nat,
    pll2NdivACnt: nat,
    pll2NdivBCnt: nat,
    pll2VcoDiffM1: nat,
    pll2VcoDiffM2: nat,
    rpole2: nat,
    rzero: nat,
    cpole1: nat)

  /** The AD9144 pseudo-random test sequences; the variable holds some other code until set. */
  datatype Prbs = Prbs7 | Prbs15 | OtherPrbs(code: int)

  /** The fields of `struct ad9144_init_param` the board sets. */
  datatype Ad9144InitParam = Ad9144InitParam(
    laneRateKbps: nat,
    spi3wire: nat,
    interpolation: nat,
    pllEnable: nat,
    pllRefFrequencyKhz: nat,
    pllDacFrequencyKhz: nat,
    jesd204Subclass: nat,
    jesd204Scrambling: nat,
    jesd204Mode: nat,
    laneXbar: seq<nat>,
    stplSamples: seq<seq<nat>>,
    prbsType: Prbs)

  /** The field of `struct ad9680_init_param` the board sets. */
  datatype Ad9680InitParam = Ad9680InitParam(laneRateKbps: nat)

  /**
   * The transceiver fields shared by `struct adxcvr` (what the preset writes) and
   * `struct adxcvr_init` (what `adxcvr_init` reads).
   */
  datatype XcvrParams = XcvrParams(
    laneRateKhz: nat,
    refRateKhz: nat,
    lpmEnable: nat,
    cpllEnable: nat,
    outClkSel: nat)

  /** `enum ad9523_channels`: the eight clock outputs, four per converter. */
  const DAC_DEVICE_CLK: nat := 0
  const DAC_DEVICE_SYSREF: nat := 1
  const DAC_FPGA_CLK: nat := 2
  const DAC_FPGA_SYSREF: nat := 3
  const ADC_DEVICE_CLK: nat := 4
  const ADC_DEVICE_SYSREF: nat := 5
  const ADC_FPGA_CLK: nat := 6
  const ADC_FPGA_SYSREF: nat := 7
  const AD9523_CHANNELS: nat := 8

  /** The dividers of one converter's four clock outputs. */
  datatype SideDividers = SideDividers(deviceClk: nat, deviceSysref: nat, fpgaClk: nat, fpgaSysref: nat)

  /** What one mode sets for one converter: its clock dividers, link rates and transceiver options. */
  datatype SidePoint = SidePoint(
    dividers: SideDividers,
    laneRateKhz: nat,
    refRateKhz: nat,
    lpmEnable: nat,
    cpllEnable: nat,
    outClkSel: nat)

  /** One of the modes '2' to '4': the PLL2 VCO divider and both converters' settings. */
  datatype OperatingPoint = OperatingPoint(vcoDiffM1: nat, dac: SidePoint, adc: SidePoint)

  /** The mode '4' sides: 600 MSPS, 6 Gbps lanes from a 300 MHz reference, on the CPLL. */
  const DAC_600: SidePoint := SidePoint(SideDividers(1, 128, 2, 128), 6000000, 300000, 0, 1, 4)
  const ADC_600: SidePoint := SidePoint(SideDividers(1, 128, 2, 128), 6000000, 300000, 1, 1, 4)
  /** 500 MSPS: 5 Gbps lanes from a 250 MHz reference, on the CPLL (either converter). */
  const SIDE_500: SidePoint := SidePoint(SideDividers(2, 256, 4, 256), 5000000, 250000, 1, 1, 4)
  /** The DAC at 1000 MSPS: 10 Gbps lanes from a 500 MHz reference, on the QPLL. */
  const DAC_1000: SidePoint := SidePoint(SideDividers(1, 128, 2, 128), 10000000, 500000, 0, 0, 4)

  /** The table of `case '4'`, `case '3'` and `case '2'`; no entry for '5' and the default. */
  function OperatingPointFor(mode: char): Option<OperatingPoint>
  {
    match mode
    case '4' => Some(OperatingPoint(5, DAC_600, ADC_600))
    case '3' => Some(OperatingPoint(3, SIDE_500, SIDE_500))
    case '2' => Some(OperatingPoint(3, DAC_1000, SIDE_500))
    case _ => None
  }

  /** The selector falls into `default`. */
  predicate IsDefaultMode(mode: char)
  {
    mode != '5' && OperatingPointFor(mode).None?
  }

  function SetDivider(chs: seq<ChannelSpec>, k: nat, d: nat): seq<ChannelSpec>
    requires k < |chs|
  {
    chs[k := chs[k].(channelDivider := d)]
  }

  /** The four dividers of the converter whose outputs start at `base`. */
  function SetSide(chs: seq<ChannelSpec>, base: nat, d: SideDividers): seq<ChannelSpec>
    requires base + 4 <= |chs|
  {
    SetDivider(SetDivider(SetDivider(SetDivider(chs,
      base, d.deviceClk), base + 1, d.deviceSysref), base + 2, d.fpgaClk), base + 3, d.fpgaSysref)
  }

  function DividerOf(p: Ad9523PlatformData, k: nat): nat
    requires k < |p.channels|
  {
    p.channels[k].channelDivider
  }

  /** What the preset does to the clock chip's platform data. */
  function ClockPreset(mode: char, p: Ad9523PlatformData): Ad9523PlatformData
    requires |p.channels| == AD9523_CHANNELS
  {
    if mode == '5' then p.(channels := SetDivider(p.channels, DAC_DEVICE_CLK, 10))
    else match OperatingPointFor(mode)
      case Some(op) =>
        p.(pll2VcoDiffM1 := op.vcoDiffM1,
           channels := SetSide(SetSide(p.channels, DAC_DEVICE_CLK, op.dac.dividers), ADC_DEVICE_CLK, op.adc.dividers))
      case None => p
  }

  /** What the preset does to the DAC's init parameters. */
  function DacPreset(mode: char, d: Ad9144InitParam): Ad9144InitParam
  {
    if mode == '5' then
      d.(pllRefFrequencyKhz := 100000, interpolation := 2, pllEnable := 1, pllDacFrequencyKhz := 2000000)
    else match OperatingPointFor(mode)
      case Some(op) => d.(laneRateKbps := op.dac.laneRateKhz)
      case None => d
  }

  /** What the preset does to the ADC's init parameters. */
  function AdcPreset(mode: char, a: Ad9680InitParam): Ad9680InitParam
  {
    match OperatingPointFor(mode)
    case Some(op) => a.(laneRateKbps := op.adc.laneRateKhz)
    case None => a
  }

  /** What the preset does to one converter's transceiver record; the options only under the Xilinx build. */
  function XcvrPresetFor(xilinx: bool, side: SidePoint, x: XcvrParams): XcvrParams
  {
    var rates := x.(laneRateKhz := side.laneRateKhz, refRateKhz := side.refRateKhz);
    if xilinx then rates.(lpmEnable := side.lpmEnable, cpllEnable := side.cpllEnable, outClkSel := side.outClkSel)
    else rates
  }

  function DacXcvrPreset(mode: char, xilinx: bool, x: XcvrParams): XcvrParams
  {
    if mode == '5' then x
    else match OperatingPointFor(mode)
      case Some(op) => XcvrPresetFor(xilinx, op.dac, x)
      case None => x.(refRateKhz := 500000)
  }

  function AdcXcvrPreset(mode: char, xilinx: bool, x: XcvrParams): XcvrParams
  {
    if mode == '5' then x
    else match OperatingPointFor(mode)
      case Some(op) => XcvrPresetFor(xilinx, op.adc, x)
      case None => x.(refRateKhz := 500000)
  }

  /** A C pointer to a record: the record it points to can be changed through it. */
  class Ref<T> {
    var val: T

    constructor (v: T)
      ensures val == v
    {
      val := v;
    }
  }

  /**
   * `fmcdaq2_reconfig`: the selector (the character `getc` returned) picks a mode, whose settings
   * are written through the five pointers; it always returns 0. The two transceiver pointers
   * must not alias, and the platform data holds the eight channel specs.
   */
  method Reconfig(mode: char, xilinx: bool,
                  dac: Ref<Ad9144InitParam>, dacXcvr: Ref<XcvrParams>,
                  adc: Ref<Ad9680InitParam>, adcXcvr: Ref<XcvrParams>,
                  clock: Ref<Ad9523PlatformData>) returns (r: int)
    requires dacXcvr != adcXcvr
    requires |clock.val.channels| == AD9523_CHANNELS
    modifies dac, dacXcvr, adc, adcXcvr, clock
    ensures r == 0
    ensures clock.val == ClockPreset(mode, old(clock.val))
    ensures dac.val == DacPreset(mode, old(dac.val))
    ensures adc.val == AdcPreset(mode, old(adc.val))
    ensures dacXcvr.val == DacXcvrPreset(mode, xilinx, old(dacXcvr.val))
    ensures adcXcvr.val == AdcXcvrPreset(mode, xilinx, old(adcXcvr.val))
  {
    match mode {
      case '5' =>
        // 100 MHz reference; the DAC at 2 GHz from its own PLL with 2x interpolation.
        clock.val := clock.val.(channels := SetDivider(clock.val.channels, DAC_DEVICE_CLK, 10));
        dac.val := dac.val.(pllRefFrequencyKhz := 100000);
        dac.val := dac.val.(interpolation := 2);
        dac.val := dac.val.(pllEnable := 1);
        dac.val := dac.val.(pllDacFrequencyKhz := 2000000);
      case '4' =>
        clock.val := clock.val.(pll2VcoDiffM1 := 5);
        SetDividers(clock, 2, 1, 128, 128, 2, 1, 128, 128);
        dac.val := dac.val.(laneRateKbps := 6000000);
        dacXcvr.val := dacXcvr.val.(laneRateKhz := 6000000);
        dacXcvr.val := dacXcvr.val.(refRateKhz := 300000);
        adc.val := adc.val.(laneRateKbps := 6000000);
        adcXcvr.val := adcXcvr.val.(laneRateKhz := 6000000);
        adcXcvr.val := adcXcvr.val.(refRateKhz := 300000);
        if xilinx {
          dacXcvr.val := dacXcvr.val.(lpmEnable := 0, cpllEnable := 1, outClkSel := 4);
          adcXcvr.val := adcXcvr.val.(lpmEnable := 1, cpllEnable := 1, outClkSel := 4);
        }
      case '3' =>
        clock.val := clock.val.(pll2VcoDiffM1 := 3);
        SetDividers(clock, 4, 2, 256, 256, 4, 2, 256, 256);
        dac.val := dac.val.(laneRateKbps := 5000000);
        dacXcvr.val := dacXcvr.val.(laneRateKhz := 5000000);
        dacXcvr.val := dacXcvr.val.(refRateKhz := 250000);
        adc.val := adc.val.(laneRateKbps := 5000000);
        adcXcvr.val := adcXcvr.val.(laneRateKhz := 5000000);
        adcXcvr.val := adcXcvr.val.(refRateKhz := 250000);
        if xilinx {
          dacXcvr.val := dacXcvr.val.(lpmEnable := 1, cpllEnable := 1, outClkSel := 4);
          adcXcvr.val := adcXcvr.val.(lpmEnable := 1, cpllEnable := 1, outClkSel := 4);
        }
      case '2' =>
        clock.val := clock.val.(pll2VcoDiffM1 := 3);
        SetDividers(clock, 2, 1, 128, 128, 4, 2, 256, 256);
        dac.val := dac.val.(laneRateKbps := 10000000);
        dacXcvr.val := dacXcvr.val.(laneRateKhz := 10000000);
        dacXcvr.val := dacXcvr.val.(refRateKhz := 500000);
        adc.val := adc.val.(laneRateKbps := 5000000);
        adcXcvr.val := adcXcvr.val.(laneRateKhz := 5000000);
        adcXcvr.val := adcXcvr.val.(refRateKhz := 250000);
        if xilinx {
          dacXcvr.val := dacXcvr.val.(lpmEnable := 0, cpllEnable := 0, outClkSel := 4);
          adcXcvr.val := adcXcvr.val.(lpmEnable := 1, cpllEnable := 1, outClkSel := 4);
        }
      case _ =>
        dacXcvr.val := dacXcvr.val.(refRateKhz := 500000);
        adcXcvr.val := adcXcvr.val.(refRateKhz := 500000);
    }
    r := 0;
  }

  /**
   * The eight divider writes of modes '2' to '4', in the order the C performs them: FPGA clock,
   * device clock, device SYSREF and FPGA SYSREF of the DAC, then the same four of the ADC.
   */
  method SetDividers(clock: Ref<Ad9523PlatformData>,
                     dacFpgaClk: nat, dacDeviceClk: nat, dacDeviceSysref: nat, dacFpgaSysref: nat,
                     adcFpgaClk: nat, adcDeviceClk: nat, adcDeviceSysref: nat, adcFpgaSysref: nat)
    requires |clock.val.channels| == AD9523_CHANNELS
    modifies clock
    ensures clock.val == old(clock.val).(channels := SetSide(SetSide(old(clock.val.channels),
      DAC_DEVICE_CLK, SideDividers(dacDeviceClk, dacDeviceSysref, dacFpgaClk, dacFpgaSysref)),
      ADC_DEVICE_CLK, SideDividers(adcDeviceClk, adcDeviceSysref, adcFpgaClk, adcFpgaSysref)))
  {
    var chs := clock.val.channels;
    chs := SetDivider(chs, DAC_FPGA_CLK, dacFpgaClk);
    chs := SetDivider(chs, DAC_DEVICE_CLK, dacDeviceClk);
    chs := SetDivider(chs, DAC_DEVICE_SYSREF, dacDeviceSysref);
    chs := SetDivider(chs, DAC_FPGA_SYSREF, dacFpgaSysref);
    chs := SetDivider(chs, ADC_FPGA_CLK, adcFpgaClk);
    chs := SetDivider(chs, ADC_DEVICE_CLK, adcDeviceClk);
    chs := SetDivider(chs, ADC_DEVICE_SYSREF, adcDeviceSysref);
    chs := SetDivider(chs, ADC_FPGA_SYSREF, adcFpgaSysref);
    clock.val := clock.val.(channels := chs);
  }

  /** The four dividers of the converter whose clock outputs start at `base`. */
  function DividersOf(p: Ad9523PlatformData, base: nat): (d: SideDividers)
    requires base + 4 <= |p.channels|
    ensures d.deviceClk == DividerOf(p, base) && d.fpgaSysref == DividerOf(p, base + 3)
  {
    SideDividers(DividerOf(p, base), DividerOf(p, base + 1), DividerOf(p, base + 2), DividerOf(p, base + 3))
  }

  /** The preset never renumbers, adds or removes a clock output. */
  lemma ClockPresetKeepsOutputs(mode: char, p: Ad9523PlatformData)
    requires |p.channels| == AD9523_CHANNELS
    ensures var q := ClockPreset(mode, p);
      && |q.channels| == AD9523_CHANNELS
      && q.numChannels == p.numChannels
      && forall k :: 0 <= k < AD9523_CHANNELS ==> q.channels[k].channelNum == p.channels[k].channelNum
  {
  }

  /**
   * Modes '2' to '4' set the PLL2 VCO divider and all eight dividers to the table's values, and
   * the lane rate of both converters, whatever they were before.
   */
  lemma OperatingModeSettings(mode: char, p: Ad9523PlatformData, d: Ad9144InitParam, a: Ad9680InitParam)
    requires |p.channels| == AD9523_CHANNELS && OperatingPointFor(mode).Some?
    ensures var op := OperatingPointFor(mode).value; var q := ClockPreset(mode, p);
      && q.pll2VcoDiffM1 == op.vcoDiffM1
      && DividersOf(q, DAC_DEVICE_CLK) == op.dac.dividers
      && DividersOf(q, ADC_DEVICE_CLK) == op.adc.dividers
      && DacPreset(mode, d).laneRateKbps == op.dac.laneRateKhz
      && AdcPreset(mode, a).laneRateKbps == op.adc.laneRateKhz
  {
  }

  /** Mode '4': M1 = 5, dividers FPGA clock 2, device clock 1, both SYSREFs 128 on each side, 6 Gbps lanes, 300 MHz references. */
  lemma Mode4Values(p: Ad9523PlatformData, d: Ad9144InitParam, a: Ad9680InitParam, x: XcvrParams, y: XcvrParams)
    requires |p.channels| == AD9523_CHANNELS
    ensures var q := ClockPreset('4', p);
      && q.pll2VcoDiffM1 == 5
      && DividersOf(q, DAC_DEVICE_CLK) == SideDividers(1, 128, 2, 128)
      && DividersOf(q, ADC_DEVICE_CLK) == SideDividers(1, 128, 2, 128)
      && q.(pll2VcoDiffM1 := p.pll2VcoDiffM1, channels := p.channels) == p
      && |q.channels| == AD9523_CHANNELS
      && (forall k :: 0 <= k < AD9523_CHANNELS ==>
            q.channels[k] == p.channels[k].(channelDivider := q.channels[k].channelDivider))
    ensures DacPreset('4', d) == d.(laneRateKbps := 6000000) && AdcPreset('4', a) == a.(laneRateKbps := 6000000)
    ensures DacXcvrPreset('4', true, x) == XcvrParams(6000000, 300000, 0, 1, 4)
    ensures AdcXcvrPreset('4', true, y) == XcvrParams(6000000, 300000, 1, 1, 4)
  {
    OperatingModeSettings('4', p, d, a);
  }

  /** Mode '3': M1 = 3, dividers 4/2/256/256 on each side, 5 Gbps lanes, 250 MHz references. */
  lemma Mode3Values(p: Ad9523PlatformData, d: Ad9144InitParam, a: Ad9680InitParam, x: XcvrParams, y: XcvrParams)
    requires |p.channels| == AD9523_CHANNELS
    ensures var q := ClockPreset('3', p);
      && q.pll2VcoDiffM1 == 3
      && DividersOf(q, DAC_DEVICE_CLK) == SideDividers(2, 256, 4, 256)
      && DividersOf(q, ADC_DEVICE_CLK) == SideDividers(2, 256, 4, 256)
      && q.(pll2VcoDiffM1 := p.pll2VcoDiffM1, channels := p.channels) == p
      && |q.channels| == AD9523_CHANNELS
      && (forall k :: 0 <= k < AD9523_CHANNELS ==>
            q.channels[k] == p.channels[k].(channelDivider := q.channels[k].channelDivider))
    ensures DacPreset('3', d) == d.(laneRateKbps := 5000000) && AdcPreset('3', a) == a.(laneRateKbps := 5000000)
    ensures DacXcvrPreset('3', true, x) == XcvrParams(5000000, 250000, 1, 1, 4)
    ensures AdcXcvrPreset('3', true, y) == XcvrParams(5000000, 250000, 1, 1, 4)
  {
    OperatingModeSettings('3', p, d, a);
  }

  /** Mode '2': the DAC at 1000 MSPS (2/1/128/128, 10 Gbps, 500 MHz), the ADC at 500 MSPS (4/2/256/256, 5 Gbps, 250 MHz). */
  lemma Mode2Values(p: Ad9523PlatformData, d: Ad9144InitParam, a: Ad9680InitParam, x: XcvrParams, y: XcvrParams)
    requires |p.channels| == AD9523_CHANNELS
    ensures var q := ClockPreset('2', p);
      && q.pll2VcoDiffM1 == 3
      && DividersOf(q, DAC_DEVICE_CLK) == SideDividers(1, 128, 2, 128)
      && DividersOf(q, ADC_DEVICE_CLK) == SideDividers(2, 256, 4, 256)
      && q.(pll2VcoDiffM1 := p.pll2VcoDiffM1, channels := p.channels) == p
      && |q.channels| == AD9523_CHANNELS
      && (forall k :: 0 <= k < AD9523_CHANNELS ==>
            q.channels[k] == p.channels[k].(channelDivider := q.channels[k].channelDivider))
    ensures DacPreset('2', d) == d.(laneRateKbps := 10000000) && AdcPreset('2', a) == a.(laneRateKbps := 5000000)
    ensures DacXcvrPreset('2', true, x) == XcvrParams(10000000, 500000, 0, 0, 4)
    ensures AdcXcvrPreset('2', true, y) == XcvrParams(5000000, 250000, 1, 1, 4)
  {
    OperatingModeSettings('2', p, d, a);
  }

  /**
   * Mode '5' changes exactly five fields: the DAC device clock divider becomes 10 and the DAC
   * runs its own PLL (100 MHz reference, 2x interpolation, 2 GHz); everything else, the lane
   * rates and both transceiver records included, is left as it was.
   */
  lemma Mode5ChangesOnlyFiveFields(p: Ad9523PlatformData, d: Ad9144InitParam, a: Ad9680InitParam,
                                   x: XcvrParams, y: XcvrParams, xilinx: bool)
    requires |p.channels| == AD9523_CHANNELS
    ensures var q := ClockPreset('5', p);
      && q.(channels := p.channels) == p
      && |q.channels| == AD9523_CHANNELS
      && q.channels[DAC_DEVICE_CLK] == p.channels[DAC_DEVICE_CLK].(channelDivider := 10)
      && (forall k :: DAC_DEVICE_CLK < k < AD9523_CHANNELS ==> q.channels[k] == p.channels[k])
    ensures var e := DacPreset('5', d);
      && e.pllRefFrequencyKhz == 100000 && e.interpolation == 2 && e.pllEnable == 1 && e.pllDacFrequencyKhz == 2000000
      && e.(pllRefFrequencyKhz := d.pllRefFrequencyKhz, interpolation := d.interpolation,
            pllEnable := d.pllEnable, pllDacFrequencyKhz := d.pllDacFrequencyKhz) == d
    ensures AdcPreset('5', a) == a
    ensures DacXcvrPreset('5', xilinx, x) == x && AdcXcvrPreset('5', xilinx, y) == y
  {
  }

  /** Any other selector (the menu's '1') sets both transceiver reference rates to 500 MHz and changes nothing else. */
  lemma DefaultModeSetsOnlyRefRates(mode: char, p: Ad9523PlatformData, d: Ad9144InitParam, a: Ad9680InitParam,
                                    x: XcvrParams, y: XcvrParams, xilinx: bool)
    requires |p.channels| == AD9523_CHANNELS
    requires mode !in {'2', '3', '4', '5'}
    ensures IsDefaultMode(mode)
    ensures ClockPreset(mode, p) == p && DacPreset(mode, d) == d && AdcPreset(mode, a) == a
    ensures var x' := DacXcvrPreset(mode, xilinx, x); x'.refRateKhz == 500000 && x'.(refRateKhz := x.refRateKhz) == x
    ensures var y' := AdcXcvrPreset(mode, xilinx, y); y'.refRateKhz == 500000 && y'.(refRateKhz := y.refRateKhz) == y
  {
  }

  /**
   * Under the Xilinx build modes '4' and '3' run both transceivers from their channel PLLs;
   * mode '2' runs the DAC's from the quad PLL and the ADC's from its channel PLL; equalisation
   * (LPM) and the output clock follow the table.
   */
  lemma XilinxPllChoice(x: XcvrParams, y: XcvrParams)
    ensures DacXcvrPreset('4', true, x).cpllEnable == 1 && AdcXcvrPreset('4', true, y).cpllEnable == 1
    ensures DacXcvrPreset('3', true, x).cpllEnable == 1 && AdcXcvrPreset('3', true, y).cpllEnable == 1
    ensures DacXcvrPreset('2', true, x).cpllEnable == 0 && AdcXcvrPreset('2', true, y).cpllEnable == 1
    ensures DacXcvrPreset('4', true, x).lpmEnable == 0 && AdcXcvrPreset('4', true, y).lpmEnable == 1
    ensures DacXcvrPreset('3', true, x).lpmEnable == 1 && AdcXcvrPreset('3', true, y).lpmEnable == 1
    ensures DacXcvrPreset('2', true, x).lpmEnable == 0 && AdcXcvrPreset('2', true, y).lpmEnable == 1
    ensures forall m :: m in {'2', '3', '4'} ==>
      DacXcvrPreset(m, true, x).outClkSel == 4 && AdcXcvrPreset(m, true, y).outClkSel == 4
  {
  }

  /** Without the Xilinx build the preset writes only the transceivers' rates. */
  lemma NonXilinxKeepsXcvrOptions(mode: char, x: XcvrParams)
    ensures var x' := DacXcvrPreset(mode, false, x);
      x'.lpmEnable == x.lpmEnable && x'.cpllEnable == x.cpllEnable && x'.outClkSel == x.outClkSel
    ensures var y' := AdcXcvrPreset(mode, false, x);
      y'.lpmEnable == x.lpmEnable && y'.cpllEnable == x.cpllEnable && y'.outClkSel == x.outClkSel
  {
  }

  lemma SetDividerTwice(chs: seq<ChannelSpec>, k: nat, d: nat)
    requires k < |chs|
    ensures SetDivider(SetDivider(chs, k, d), k, d) == SetDivider(chs, k, d)
  {
  }

  lemma {:induction false} SetSideTwice(chs: seq<ChannelSpec>, base: nat, d: SideDividers)
    requires base + 4 <= |chs|
    ensures |SetSide(chs, base, d)| == |chs|
    ensures SetSide(SetSide(chs, base, d), base, d) == SetSide(chs, base, d)
  {
    var once := SetSide(chs, base, d);
    var twice := SetSide(once, base, d);
    assert |twice| == |once|;
    forall k | 0 <= k < |once|
      ensures twice[k] == once[k]
    {
    }
  }

  /** Choosing the same mode a second time changes nothing: every preset writes fixed values. */
  lemma {:induction false} PresetIdempotent(mode: char, xilinx: bool, p: Ad9523PlatformData, d: Ad9144InitParam,
                                            a: Ad9680InitParam, x: XcvrParams, y: XcvrParams)
    requires |p.channels| == AD9523_CHANNELS
    ensures |ClockPreset(mode, p).channels| == AD9523_CHANNELS
    ensures ClockPreset(mode, ClockPreset(mode, p)) == ClockPreset(mode, p)
    ensures DacPreset(mode, DacPreset(mode, d)) == DacPreset(mode, d)
    ensures AdcPreset(mode, AdcPreset(mode, a)) == AdcPreset(mode, a)
    ensures DacXcvrPreset(mode, xilinx, DacXcvrPreset(mode, xilinx, x)) == DacXcvrPreset(mode, xilinx, x)
    ensures AdcXcvrPreset(mode, xilinx, AdcXcvrPreset(mode, xilinx, y)) == AdcXcvrPreset(mode, xilinx, y)
  {
    match OperatingPointFor(mode)
    case Some(op) =>
      var dacSide := SetSide(p.channels, DAC_DEVICE_CLK, op.dac.dividers);
      SetSideTwice(p.channels, DAC_DEVICE_CLK, op.dac.dividers);
      var both := SetSide(dacSide, ADC_DEVICE_CLK, op.adc.dividers);
      SetSideTwice(dacSide, ADC_DEVICE_CLK, op.adc.dividers);
      var again := SetSide(both, DAC_DEVICE_CLK, op.dac.dividers);
      assert again == SetSide(SetSide(dacSide, DAC_DEVICE_CLK, op.dac.dividers), ADC_DEVICE_CLK, op.adc.dividers) by {
        forall k | 0 <= k < |again|
          ensures again[k] == SetSide(SetSide(dacSide, DAC_DEVICE_CLK, op.dac.dividers), ADC_DEVICE_CLK, op.adc.dividers)[k]
        {
        }
      }
    case None =>
      if mode == '5' {
        SetDividerTwice(p.channels, DAC_DEVICE_CLK, 10);
      }
  }

  /**
   * The PLL2 VCO frequency in kHz, by the AD9523's feedback formula: the VCXO frequency,
   * doubled when the doubler is on, divided by R2 and multiplied by 4 * B + A.
   */
  function Pll2VcoKhz(p: Ad9523PlatformData): nat
    requires p.pll2R2Div > 0
  {
    (p.vcxoFreq * (if p.pll2FreqDoublerEn == 1 then 2 else 1) / p.pll2R2Div
      * (4 * p.pll2NdivBCnt + p.pll2NdivACnt)) / 1000
  }

  /** The preset leaves the PLL2 feedback path alone: the VCO runs at the same frequency. */
  lemma PresetKeepsVco(mode: char, p: Ad9523PlatformData)
    requires |p.channels| == AD9523_CHANNELS && p.pll2R2Div > 0
    ensures ClockPreset(mode, p).pll2R2Div == p.pll2R2Div
    ensures Pll2VcoKhz(ClockPreset(mode, p)) == Pll2VcoKhz(p)
  {
  }

  /** The frequency in kHz of clock output `k`: the VCO divided by M1 and by the output's divider. */
  function OutputKhz(p: Ad9523PlatformData, k: nat): nat
    requires p.pll2R2Div > 0 && p.pll2VcoDiffM1 > 0
    requires k < |p.channels| && DividerOf(p, k) > 0
  {
    Pll2VcoKhz(p) / (p.pll2VcoDiffM1 * DividerOf(p, k))
  }

  /** The ADC and DAC sample rates, in kHz, the menu printed before the selector is read announces. */
  datatype MenuRates = MenuRates(adcKhz: nat, dacKhz: nat)

  function MenuRatesFor(mode: char): MenuRates
  {
    match mode
    case '2' => MenuRates(500000, 1000000)
    case '3' => MenuRates(500000, 500000)
    case '4' => MenuRates(600000, 600000)
    case '5' => MenuRates(1000000, 2000000)
    case _ => MenuRates(1000000, 1000000)
  }
}
