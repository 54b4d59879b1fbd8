/**
 * The FMCDAQ2 bring-up in `main`: the compiled defaults, the call of the preset, and the fixed
 * order of driver calls, recorded as a trace of events. The drivers themselves are not modelled:
 * each call is an event carrying the records it is handed.
 */
module Fmcdaq2Main {

  import opened Common
  import opened Fmcdaq2Config

  /** The FMCDAQ2 control lines. */
  const GPIO_CLKD_SYNC: nat := 38
  const GPIO_DAC_RESET: nat := 40
  const GPIO_DAC_TXEN: nat := 41
  const GPIO_ADC_PD: nat := 42

  /** The length of `jesd204_lane_xbar`; the AD9144 has eight lanes. */
  const LANE_XBAR_SIZE: nat := 8

  /** The DAC core's data sources the bring-up selects. */
  datatype DataSel = SelDds | SelSed | SelPn23 | SelPn31

  /** `struct axi_dac_channel`. */
  datatype DacChannel = DacChannel(
    ddsDualTone: nat,
    ddsFrequency0: nat,
    ddsPhase0: nat,
    ddsScale0: nat,
    patData: nat,
    sel: DataSel)

  /** The fields of `struct jesd204_tx_init` and `struct jesd204_rx_init` the board sets. */
  datatype JesdInit = JesdInit(octetsPerFrame: nat, framesPerMultiframe: nat, subclass: nat)

  datatype Side = DacSide | AdcSide

  datatype Device = AD9144 | AD9523 | AD9680

  datatype Ad9680TestMode = TestPn9 | TestPn23 | TestOff

  /**
   * What `main` reads before it has written it: the two `struct adxcvr` the uninitialised
   * pointers handed to the preset designate, the two transceiver init records (whose fields the
   * code never sets are whatever the stack held), and the DAC init record (its PLL frequencies
   * and PRBS type are only set by the preset or later).
   */
  datatype Uninitialised = Uninitialised(
    dacXcvr: XcvrParams,
    adcXcvr: XcvrParams,
    dacXcvrInit: XcvrParams,
    adcXcvrInit: XcvrParams,
    dac: Ad9144InitParam)

  /** Every record the bring-up hands to a driver. */
  datatype BringUpConfig = BringUpConfig(
    clock: Ad9523PlatformData,
    dac: Ad9144InitParam,
    adc: Ad9680InitParam,
    dacXcvrInit: XcvrParams,
    adcXcvrInit: XcvrParams,
    txJesd: JesdInit,
    rxJesd: JesdInit,
    dacCoreChannels: nat,
    adcCoreChannels: nat,
    dacChannels: seq<DacChannel>)

  /** One driver call of the bring-up, with the records it is given. */
  datatype Event =
    | Ad9523Init
    | GpioGet(pin: nat)
    | GpioSet(pin: nat, level: nat)
    | Delay(ms: nat)
    | Ad9523Setup(clock: Ad9523PlatformData)
    | Ad9680Setup(adc: Ad9680InitParam)
    | JesdTxInit(tx: JesdInit)
    | XcvrInit(side: Side, xcvr: XcvrParams)
    | JesdRxInit(rx: JesdInit)
    | Ad9144Setup(dac: Ad9144InitParam)
    | JesdTxStatusRead
    | JesdRxStatusRead
    | AdcCoreInit(adcChannels: nat)
    | DacCoreInit(dacChannels: nat)
    | Ad9144Status
    | DacDataSetup(channels: seq<DacChannel>)
    | ShortPatternTest(patternParam: Ad9144InitParam)
    | PrbsTest(prbsParam: Ad9144InitParam)
    | Ad9680Test(testMode: Ad9680TestMode)
    | DeviceRemove(device: Device)
    | GpioRemove(pin: nat)

  /** The kinds of event the ordering properties speak of; every other call is `OtherStep`. */
  datatype Step =
    | ClockChipInit
    | GpioAcquire(pin: nat)
    | GpioLevel(pin: nat, level: nat)
    | Wait
    | ClockSetup
    | AdcSetup
    | TxLinkInit
    | PhyInit(side: Side)
    | RxLinkInit
    | DacSetup
    | Release(device: Device)
    | GpioRelease(pin: nat)
    | OtherStep

  function StepOf(e: Event): Step
  {
    match e
    case Ad9523Init => ClockChipInit
    case GpioGet(n) => GpioAcquire(n)
    case GpioSet(n, v) => GpioLevel(n, v)
    case Delay(_) => Wait
    case Ad9523Setup(_) => ClockSetup
    case Ad9680Setup(_) => AdcSetup
    case JesdTxInit(_) => TxLinkInit
    case XcvrInit(s, _) => PhyInit(s)
    case JesdRxInit(_) => RxLinkInit
    case Ad9144Setup(_) => DacSetup
    case DeviceRemove(d) => Release(d)
    case GpioRemove(n) => GpioRelease(n)
    case _ => OtherStep
  }

  /** Every event of kind `a` in `t` comes before every event of kind `b`. */
  predicate Precedes(t: seq<Event>, a: Step, b: Step)
  {
    forall i, j :: 0 <= i < |t| && 0 <= j < |t| && StepOf(t[i]) == a && StepOf(t[j]) == b ==> i < j
  }

  /** Pin `n`'s level while the converters are held in reset. */
  function QuiescentLevel(n: nat): nat
  {
    if n == GPIO_ADC_PD then 1 else 0
  }

  /**
   * The intended stage order: the clock chip's init, claiming the control lines, their quiescent
   * levels, the wait, their active levels, the clock setup, then the recommended JESD204 link
   * start-up of both converters interleaved (ADC, DAC link layer, physical layer, ADC link
   * layer, DAC), the tests, and the releases.
   */
  function Rank(k: Step): nat
  {
    match k
    case ClockChipInit => 0
    case GpioAcquire(_) => 1
    case GpioLevel(n, v) => if v == QuiescentLevel(n) then 2 else 4
    case Wait => 3
    case ClockSetup => 5
    case AdcSetup => 6
    case TxLinkInit => 7
    case PhyInit(_) => 8
    case RxLinkInit => 9
    case DacSetup => 10
    case OtherStep => 11
    case Release(_) => 12
    case GpioRelease(_) => 12
  }

  /** `t` never runs a later stage before an earlier one. */
  predicate Ordered(t: seq<Event>)
  {
    forall i, j :: 0 <= i < j < |t| ==> Rank(StepOf(t[i])) <= Rank(StepOf(t[j]))
  }

  /** Every event of `t` belongs to a stage between `lo` and `hi`. */
  predicate RanksWithin(t: seq<Event>, lo: nat, hi: nat)
  {
    forall e :: e in t ==> lo <= Rank(StepOf(e)) <= hi
  }

  lemma UniformOrdered(t: seq<Event>, r: nat)
    requires RanksWithin(t, r, r)
    ensures Ordered(t)
  {
    forall i, j | 0 <= i < j < |t|
      ensures Rank(StepOf(t[i])) <= Rank(StepOf(t[j]))
    {
      assert t[i] in t && t[j] in t;
    }
  }

  lemma {:induction false} OrderedConcat(x: seq<Event>, y: seq<Event>, lo: nat, mid: nat, hi: nat)
    requires lo <= mid <= hi
    requires Ordered(x) && Ordered(y) && RanksWithin(x, lo, mid) && RanksWithin(y, mid, hi)
    ensures Ordered(x + y) && RanksWithin(x + y, lo, hi)
  {
    var t := x + y;
    forall i, j | 0 <= i < j < |t|
      ensures Rank(StepOf(t[i])) <= Rank(StepOf(t[j]))
    {
      if j < |x| {
        assert t[i] == x[i] && t[j] == x[j];
      } else if i >= |x| {
        assert t[i] == y[i - |x|] && t[j] == y[j - |x|];
      } else {
        assert t[i] == x[i] && x[i] in x;
        assert t[j] == y[j - |x|] && y[j - |x|] in y;
      }
    }
    forall e | e in t
      ensures lo <= Rank(StepOf(e)) <= hi
    {
      assert e in x || e in y;
    }
  }

  /** In an ordered trace every event of an earlier stage precedes every event of a later one. */
  lemma OrderedPrecedes(t: seq<Event>, a: Step, b: Step)
    requires Ordered(t) && Rank(a) < Rank(b)
    ensures Precedes(t, a, b)
  {
    forall i, j | 0 <= i < |t| && 0 <= j < |t| && StepOf(t[i]) == a && StepOf(t[j]) == b
      ensures i < j
    {
    }
  }

  /** An event of kind `a` or `b` in `x + m + y` lies in `m` when `x` and `y` hold none. */
  lemma FramedIndex(x: seq<Event>, m: seq<Event>, y: seq<Event>, a: Step, b: Step, k: int)
    requires forall e :: e in x || e in y ==> StepOf(e) != a && StepOf(e) != b
    requires 0 <= k < |x + m + y| && StepOf((x + m + y)[k]) in {a, b}
    ensures |x| <= k < |x| + |m| && (x + m + y)[k] == m[k - |x|]
  {
  }

  /** Events of kinds that occur only in the middle part are ordered as they are there. */
  lemma PrecedesFramed(x: seq<Event>, m: seq<Event>, y: seq<Event>, a: Step, b: Step)
    requires forall e :: e in x || e in y ==> StepOf(e) != a && StepOf(e) != b
    ensures Precedes(x + m + y, a, b) <==> Precedes(m, a, b)
  {
    if Precedes(m, a, b) {
      PrecedesFromMiddle(x, m, y, a, b);
    }
    if Precedes(x + m + y, a, b) {
      PrecedesToMiddle(x, m, y, a, b);
    }
  }

  lemma {:induction false} PrecedesFromMiddle(x: seq<Event>, m: seq<Event>, y: seq<Event>, a: Step, b: Step)
    requires forall e :: e in x || e in y ==> StepOf(e) != a && StepOf(e) != b
    requires Precedes(m, a, b)
    ensures Precedes(x + m + y, a, b)
  {
    var t := x + m + y;
    forall i, j | 0 <= i < |t| && 0 <= j < |t| && StepOf(t[i]) == a && StepOf(t[j]) == b
      ensures i < j
    {
      FramedIndex(x, m, y, a, b, i);
      FramedIndex(x, m, y, a, b, j);
    }
  }

  lemma {:induction false} PrecedesToMiddle(x: seq<Event>, m: seq<Event>, y: seq<Event>, a: Step, b: Step)
    requires Precedes(x + m + y, a, b)
    ensures Precedes(m, a, b)
  {
    var t := x + m + y;
    forall i, j | 0 <= i < |m| && 0 <= j < |m| && StepOf(m[i]) == a && StepOf(m[j]) == b
      ensures |x| + i < |x| + j
    {
      assert t[|x| + i] == m[i] && t[|x| + j] == m[j];
    }
  }

  // ---------------------------------------------------------------- defaults

  /** The eight clock outputs and their dividers. */
  const DEFAULT_CHANNELS: seq<ChannelSpec> := [
    ChannelSpec(1, 1), ChannelSpec(7, 128), ChannelSpec(9, 2), ChannelSpec(8, 128),
    ChannelSpec(13, 1), ChannelSpec(6, 128), ChannelSpec(4, 2), ChannelSpec(5, 128)]

  /** The clock chip at a 125 MHz VCXO, PLL2 at 3 GHz (B = 6, A = 0, R2 = 1) and M1 = 3. */
  const DEFAULT_CLOCK: Ad9523PlatformData :=
    Ad9523PlatformData(8, DEFAULT_CHANNELS, 125000000, 1, 1, 413000, 0, 1, 0, 6, 3, 0, 0, 7, 2)

  /** The lane crossbar that maps every logical lane to the physical lane of the same number. */
  function IdentityXbar(): (x: seq<nat>)
    ensures |x| == LANE_XBAR_SIZE && forall n :: 0 <= n < |x| ==> x[n] == n
  {
    seq(LANE_XBAR_SIZE, n => n)
  }

  /** `(w >> 0) & 0xffff` and `(w >> 16) & 0xffff`. */
  function Low16(w: nat): nat { w % 0x1_0000 }
  function High16(w: nat): nat { (w / 0x1_0000) % 0x1_0000 }

  const DAC_PATTERN_0: nat := 0xb1b0a1a0
  const DAC_PATTERN_1: nat := 0xd1d0c1c0

  /** One row of the short transport-pattern test: the pattern's low half, high half, low, high. */
  function StplRow(w: nat): seq<nat>
  {
    [Low16(w), High16(w), Low16(w), High16(w)]
  }

  /** The DAC init record after `main`'s assignments, on top of what the stack held. */
  function DefaultDac(raw: Ad9144InitParam): Ad9144InitParam
  {
    raw.(laneRateKbps := 10000000, spi3wire := 1, interpolation := 1, pllEnable := 0,
         jesd204Subclass := 1, jesd204Scrambling := 1, jesd204Mode := 4,
         laneXbar := IdentityXbar(),
         stplSamples := [StplRow(DAC_PATTERN_0), StplRow(DAC_PATTERN_1)])
  }

  const DEFAULT_ADC: Ad9680InitParam := Ad9680InitParam(10000000)

  /** The two DAC channels: single DDS tones at 33 MHz and 11 MHz, and their test patterns. */
  const DEFAULT_DAC_CHANNELS: seq<DacChannel> := [
    DacChannel(0, 33 * 1000 * 1000, 0, 500000, DAC_PATTERN_0, SelDds),
    DacChannel(0, 11 * 1000 * 1000, 0, 500000, DAC_PATTERN_1, SelDds)]

  const DEFAULT_JESD: JesdInit := JesdInit(1, 32, 1)

  /** The DAC transceiver record as `main` fills it: 500 MHz reference, 10 Gbps, quad PLL. */
  function DacXcvrInitAsWritten(raw: XcvrParams): XcvrParams
  {
    raw.(refRateKhz := 500000, cpllEnable := 0, laneRateKhz := 10000000)
  }

  /** The ADC transceiver record as `main` fills it; its `cpll_enable` is never assigned. */
  function AdcXcvrInitAsWritten(raw: XcvrParams): XcvrParams
  {
    raw.(refRateKhz := 500000, laneRateKhz := DEFAULT_ADC.laneRateKbps)
  }

  /**
   * The records the drivers receive when `main` runs with the selector `mode`, as the code is
   * written: the preset reaches the clock, DAC and ADC records, but its transceiver writes go to
   * the `struct adxcvr` scratch records, so the transceiver init records keep the defaults.
   */
  function ConfigAsWritten(mode: char, u: Uninitialised): BringUpConfig
  {
    BringUpConfig(
      ClockPreset(mode, DEFAULT_CLOCK),
      DacPreset(mode, DefaultDac(u.dac)),
      AdcPreset(mode, DEFAULT_ADC),
      DacXcvrInitAsWritten(u.dacXcvrInit),
      AdcXcvrInitAsWritten(u.adcXcvrInit),
      DEFAULT_JESD, DEFAULT_JESD, 2, 2, DEFAULT_DAC_CHANNELS)
  }

  /**
   * The records as evidently intended: the second `cpll_enable = 0` sets the ADC's transceiver
   * record, and the preset is applied to the transceiver init records that `adxcvr_init` reads.
   */
  function ConfigCorrected(mode: char, u: Uninitialised): BringUpConfig
  {
    ConfigAsWritten(mode, u).(
      dacXcvrInit := DacXcvrPreset(mode, true, DacXcvrInitAsWritten(u.dacXcvrInit)),
      adcXcvrInit := AdcXcvrPreset(mode, true, AdcXcvrInitAsWritten(u.adcXcvrInit).(cpllEnable := 0)))
  }

  // ---------------------------------------------------------------- the trace

  /** The DAC transceiver controls the quad PLL's reset and is brought up first. */
  predicate DacXcvrFirst(cfg: BringUpConfig)
  {
    cfg.dacXcvrInit.cpllEnable == 0
  }

  function WithSel(chs: seq<DacChannel>, s: DataSel): seq<DacChannel>
  {
    seq(|chs|, k requires 0 <= k < |chs| => chs[k].(sel := s))
  }

  /** Selecting a source only replaces the previous selection. */
  lemma WithSelAgain(chs: seq<DacChannel>, s: DataSel, s': DataSel)
    ensures WithSel(WithSel(chs, s), s') == WithSel(chs, s')
  {
  }

  /** Claiming the four control lines, holding them at their quiescent levels, waiting, then driving them to their active levels. */
  function ResetSequence(): seq<Event>
  {
    [GpioGet(GPIO_CLKD_SYNC), GpioGet(GPIO_DAC_RESET), GpioGet(GPIO_DAC_TXEN), GpioGet(GPIO_ADC_PD)]
    + [GpioSet(GPIO_CLKD_SYNC, 0), GpioSet(GPIO_DAC_RESET, 0), GpioSet(GPIO_DAC_TXEN, 0), GpioSet(GPIO_ADC_PD, 1)]
    + [Delay(5)]
    + [GpioSet(GPIO_CLKD_SYNC, 1), GpioSet(GPIO_DAC_RESET, 1), GpioSet(GPIO_DAC_TXEN, 1), GpioSet(GPIO_ADC_PD, 0)]
  }

  /** The two transceivers, in the order the PLL choice of the DAC's dictates. */
  function PhyLayer(cfg: BringUpConfig): seq<Event>
  {
    if DacXcvrFirst(cfg) then [XcvrInit(DacSide, cfg.dacXcvrInit), XcvrInit(AdcSide, cfg.adcXcvrInit)]
    else [XcvrInit(AdcSide, cfg.adcXcvrInit), XcvrInit(DacSide, cfg.dacXcvrInit)]
  }

  /** Status reads, the interface cores, and the transmit and receive path tests. */
  function PathTests(cfg: BringUpConfig): seq<Event>
  {
    [JesdTxStatusRead, JesdRxStatusRead, AdcCoreInit(cfg.adcCoreChannels), DacCoreInit(cfg.dacCoreChannels), Ad9144Status,
     DacDataSetup(WithSel(cfg.dacChannels, SelSed)), ShortPatternTest(cfg.dac),
     DacDataSetup(WithSel(cfg.dacChannels, SelPn23)), PrbsTest(cfg.dac.(prbsType := Prbs7)),
     DacDataSetup(WithSel(cfg.dacChannels, SelPn31)), PrbsTest(cfg.dac.(prbsType := Prbs15)),
     Ad9680Test(TestPn9), Ad9680Test(TestPn23),
     DacDataSetup(WithSel(cfg.dacChannels, SelDds)), Ad9680Test(TestOff)]
  }

  function Teardown(): seq<Event>
  {
    [DeviceRemove(AD9144), DeviceRemove(AD9523), DeviceRemove(AD9680),
     GpioRemove(GPIO_CLKD_SYNC), GpioRemove(GPIO_DAC_RESET), GpioRemove(GPIO_DAC_TXEN), GpioRemove(GPIO_ADC_PD)]
  }

  /**
   * Every driver call `main` makes with the records `cfg`: the clock chip's init runs before the
   * defaults are filled in, the rest after the preset.
   */
  function MainTrace(cfg: BringUpConfig): seq<Event>
  {
    [Ad9523Init] + BringUpTrace(cfg)
  }

  /**
   * Clocks, then the two JESD204 links, interleaved so that the transceivers come up together:
   * the ADC, the DAC's FPGA link layer, the physical layer, the ADC's FPGA link layer, the DAC.
   */
  function LinkStartup(cfg: BringUpConfig): seq<Event>
  {
    LinkHead(cfg) + PhyLayer(cfg) + LinkTail(cfg)
  }

  /** Clock chip, ADC, DAC link layer. */
  function LinkHead(cfg: BringUpConfig): seq<Event>
  {
    [Ad9523Setup(cfg.clock)] + [Ad9680Setup(cfg.adc)] + [JesdTxInit(cfg.txJesd)]
  }

  /** ADC link layer, DAC. */
  function LinkTail(cfg: BringUpConfig): seq<Event>
  {
    [JesdRxInit(cfg.rxJesd)] + [Ad9144Setup(cfg.dac)]
  }

  /** The bring-up after the preset. */
  function BringUpTrace(cfg: BringUpConfig): seq<Event>
  {
    ResetSequence() + LinkStartup(cfg) + PathTests(cfg) + Teardown()
  }

  // ---------------------------------------------------------------- ordering

  lemma ResetSequenceOrdered()
    ensures Ordered(ResetSequence()) && RanksWithin(ResetSequence(), 1, 4)
  {
    var gets := [GpioGet(GPIO_CLKD_SYNC), GpioGet(GPIO_DAC_RESET), GpioGet(GPIO_DAC_TXEN), GpioGet(GPIO_ADC_PD)];
    var low := [GpioSet(GPIO_CLKD_SYNC, 0), GpioSet(GPIO_DAC_RESET, 0), GpioSet(GPIO_DAC_TXEN, 0), GpioSet(GPIO_ADC_PD, 1)];
    var high := [GpioSet(GPIO_CLKD_SYNC, 1), GpioSet(GPIO_DAC_RESET, 1), GpioSet(GPIO_DAC_TXEN, 1), GpioSet(GPIO_ADC_PD, 0)];
    UniformOrdered(gets, 1);
    UniformOrdered(low, 2);
    UniformOrdered([Delay(5)], 3);
    UniformOrdered(high, 4);
    OrderedConcat(gets, low, 1, 2, 2);
    OrderedConcat(gets + low, [Delay(5)], 1, 3, 3);
    OrderedConcat(gets + low + [Delay(5)], high, 1, 4, 4);
  }

  lemma {:induction false} LinkHeadOrdered(cfg: BringUpConfig)
    ensures Ordered(LinkHead(cfg)) && RanksWithin(LinkHead(cfg), 5, 7)
  {
    var clk, adc, tx := [Ad9523Setup(cfg.clock)], [Ad9680Setup(cfg.adc)], [JesdTxInit(cfg.txJesd)];
    UniformOrdered(clk, 5);
    UniformOrdered(adc, 6);
    UniformOrdered(tx, 7);
    OrderedConcat(clk, adc, 5, 6, 6);
    OrderedConcat(clk + adc, tx, 5, 7, 7);
  }

  lemma {:induction false} LinkTailOrdered(cfg: BringUpConfig)
    ensures Ordered(LinkTail(cfg)) && RanksWithin(LinkTail(cfg), 9, 10)
  {
    var rx, dac := [JesdRxInit(cfg.rxJesd)], [Ad9144Setup(cfg.dac)];
    UniformOrdered(rx, 9);
    UniformOrdered(dac, 10);
    OrderedConcat(rx, dac, 9, 10, 10);
  }

  lemma PhyLayerRanks(cfg: BringUpConfig)
    ensures RanksWithin(PhyLayer(cfg), 8, 8)
  {
  }

  lemma {:induction false} LinkStartupOrdered(cfg: BringUpConfig)
    ensures Ordered(LinkStartup(cfg)) && RanksWithin(LinkStartup(cfg), 5, 10)
  {
    LinkHeadOrdered(cfg);
    LinkTailOrdered(cfg);
    PhyLayerRanks(cfg);
    UniformOrdered(PhyLayer(cfg), 8);
    OrderedConcat(LinkHead(cfg), PhyLayer(cfg), 5, 8, 8);
    OrderedConcat(LinkHead(cfg) + PhyLayer(cfg), LinkTail(cfg), 5, 9, 10);
  }

  lemma PathTestsRanks(cfg: BringUpConfig)
    ensures RanksWithin(PathTests(cfg), 11, 11)
  {
    var t := PathTests(cfg);
    forall i | 0 <= i < |t|
      ensures Rank(StepOf(t[i])) == 11
    {
    }
    forall e | e in t
      ensures Rank(StepOf(e)) == 11
    {
      var i :| 0 <= i < |t| && t[i] == e;
    }
  }

  lemma TeardownRanks()
    ensures RanksWithin(Teardown(), 12, 12)
  {
    var t := Teardown();
    forall i | 0 <= i < |t|
      ensures Rank(StepOf(t[i])) == 12
    {
    }
    forall e | e in t
      ensures Rank(StepOf(e)) == 12
    {
      var i :| 0 <= i < |t| && t[i] == e;
    }
  }

  /** The whole of `main`'s trace follows the stage order. */
  lemma {:induction false} MainTraceOrdered(cfg: BringUpConfig)
    ensures Ordered(MainTrace(cfg)) && RanksWithin(MainTrace(cfg), 0, 12)
  {
    ResetSequenceOrdered();
    LinkStartupOrdered(cfg);
    PathTestsRanks(cfg);
    UniformOrdered(PathTests(cfg), 11);
    TeardownRanks();
    UniformOrdered(Teardown(), 12);
    UniformOrdered([Ad9523Init], 0);
    var r, l, p := ResetSequence(), LinkStartup(cfg), PathTests(cfg);
    OrderedConcat(r, l, 1, 5, 10);
    OrderedConcat(r + l, p, 1, 11, 11);
    OrderedConcat(r + l + p, Teardown(), 1, 12, 12);
    OrderedConcat([Ad9523Init], BringUpTrace(cfg), 0, 1, 12);
  }

  /** The four control lines main drives. */
  predicate ControlLine(n: nat)
  {
    n == GPIO_CLKD_SYNC || n == GPIO_DAC_RESET || n == GPIO_DAC_TXEN || n == GPIO_ADC_PD
  }

  /** The reset sequence claims each control line and drives it to both levels, around one wait. */
  lemma ResetSequenceMembers(n: nat)
    requires ControlLine(n)
    ensures var r := ResetSequence();
      GpioGet(n) in r && GpioSet(n, QuiescentLevel(n)) in r && GpioSet(n, 1 - QuiescentLevel(n)) in r
      && Delay(5) in r
  {
  }

  lemma TeardownMembers(n: nat, d: Device)
    requires ControlLine(n)
    ensures GpioRemove(n) in Teardown() && DeviceRemove(d) in Teardown()
  {
  }

  lemma {:induction false} MainTraceMembers(cfg: BringUpConfig, n: nat)
    requires ControlLine(n)
    ensures var t := MainTrace(cfg);
      && GpioGet(n) in t && GpioSet(n, QuiescentLevel(n)) in t && GpioSet(n, 1 - QuiescentLevel(n)) in t
      && Delay(5) in t && GpioRemove(n) in t
      && DeviceRemove(AD9144) in t && DeviceRemove(AD9523) in t && DeviceRemove(AD9680) in t
      && Ad9523Setup(cfg.clock) in t && Ad9680Setup(cfg.adc) in t && JesdTxInit(cfg.txJesd) in t
      && XcvrInit(DacSide, cfg.dacXcvrInit) in t && XcvrInit(AdcSide, cfg.adcXcvrInit) in t
      && JesdRxInit(cfg.rxJesd) in t && Ad9144Setup(cfg.dac) in t
  {
    ResetSequenceMembers(n);
    TeardownMembers(n, AD9144);
    TeardownMembers(n, AD9523);
    TeardownMembers(n, AD9680);
    var l := LinkStartup(cfg);
    assert Ad9523Setup(cfg.clock) in l && Ad9680Setup(cfg.adc) in l && JesdTxInit(cfg.txJesd) in l;
    assert XcvrInit(DacSide, cfg.dacXcvrInit) in l && XcvrInit(AdcSide, cfg.adcXcvrInit) in l;
    assert JesdRxInit(cfg.rxJesd) in l && Ad9144Setup(cfg.dac) in l;
  }

  /** `main`'s trace up to the transceivers, and after them. */
  function TraceBeforePhy(cfg: BringUpConfig): seq<Event>
  {
    [Ad9523Init] + ResetSequence() + LinkHead(cfg)
  }

  function TraceAfterPhy(cfg: BringUpConfig): seq<Event>
  {
    LinkTail(cfg) + PathTests(cfg) + Teardown()
  }

  lemma {:induction false} TraceBeforePhyRanks(cfg: BringUpConfig)
    ensures RanksWithin(TraceBeforePhy(cfg), 0, 7)
  {
    ResetSequenceOrdered();
    LinkHeadOrdered(cfg);
    UniformOrdered([Ad9523Init], 0);
    OrderedConcat([Ad9523Init], ResetSequence(), 0, 1, 4);
    OrderedConcat([Ad9523Init] + ResetSequence(), LinkHead(cfg), 0, 5, 7);
  }

  lemma {:induction false} TraceAfterPhyRanks(cfg: BringUpConfig)
    ensures RanksWithin(TraceAfterPhy(cfg), 9, 12)
  {
    LinkTailOrdered(cfg);
    PathTestsRanks(cfg);
    TeardownRanks();
    UniformOrdered(PathTests(cfg), 11);
    UniformOrdered(Teardown(), 12);
    OrderedConcat(LinkTail(cfg), PathTests(cfg), 9, 11, 11);
    OrderedConcat(LinkTail(cfg) + PathTests(cfg), Teardown(), 9, 12, 12);
  }

  /** The transceivers' events are the only physical-layer events of the trace. */
  lemma {:induction false} PhyLayerFramed(cfg: BringUpConfig)
    ensures MainTrace(cfg) == TraceBeforePhy(cfg) + PhyLayer(cfg) + TraceAfterPhy(cfg)
    ensures forall e :: e in TraceBeforePhy(cfg) || e in TraceAfterPhy(cfg) ==>
      StepOf(e) != PhyInit(DacSide) && StepOf(e) != PhyInit(AdcSide)
  {
    TraceBeforePhyRanks(cfg);
    TraceAfterPhyRanks(cfg);
  }

  /** What the stage order alone says about one control line's levels. */
  lemma OrderedLineLevels(t: seq<Event>, n: nat)
    requires Ordered(t)
    ensures Precedes(t, GpioLevel(n, QuiescentLevel(n)), Wait)
    ensures Precedes(t, Wait, GpioLevel(n, 1 - QuiescentLevel(n)))
    ensures forall v :: Precedes(t, GpioLevel(n, v), ClockSetup)
  {
    OrderedPrecedes(t, GpioLevel(n, QuiescentLevel(n)), Wait);
    OrderedPrecedes(t, Wait, GpioLevel(n, 1 - QuiescentLevel(n)));
    forall v
      ensures Precedes(t, GpioLevel(n, v), ClockSetup)
    {
      OrderedPrecedes(t, GpioLevel(n, v), ClockSetup);
    }
  }

  /** What the stage order alone says about claiming and releasing one control line. */
  lemma OrderedLineLifetime(t: seq<Event>, n: nat)
    requires Ordered(t)
    ensures forall v :: Precedes(t, GpioAcquire(n), GpioLevel(n, v)) && Precedes(t, GpioLevel(n, v), GpioRelease(n))
    ensures Precedes(t, GpioAcquire(n), GpioRelease(n))
  {
    forall v
      ensures Precedes(t, GpioAcquire(n), GpioLevel(n, v)) && Precedes(t, GpioLevel(n, v), GpioRelease(n))
    {
      OrderedPrecedes(t, GpioAcquire(n), GpioLevel(n, v));
      OrderedPrecedes(t, GpioLevel(n, v), GpioRelease(n));
    }
    OrderedPrecedes(t, GpioAcquire(n), GpioRelease(n));
  }

  /** What the stage order alone says about the devices and links. */
  lemma OrderedLinkStages(t: seq<Event>, s: Side)
    requires Ordered(t)
    ensures Precedes(t, ClockSetup, AdcSetup) && Precedes(t, AdcSetup, TxLinkInit)
    ensures Precedes(t, TxLinkInit, PhyInit(s)) && Precedes(t, PhyInit(s), RxLinkInit)
    ensures Precedes(t, RxLinkInit, DacSetup)
    ensures Precedes(t, ClockSetup, Release(AD9523)) && Precedes(t, AdcSetup, Release(AD9680))
    ensures Precedes(t, DacSetup, Release(AD9144))
  {
    OrderedPrecedes(t, ClockSetup, AdcSetup);
    OrderedPrecedes(t, AdcSetup, TxLinkInit);
    OrderedPrecedes(t, TxLinkInit, PhyInit(s));
    OrderedPrecedes(t, PhyInit(s), RxLinkInit);
    OrderedPrecedes(t, RxLinkInit, DacSetup);
    OrderedPrecedes(t, ClockSetup, Release(AD9523));
    OrderedPrecedes(t, AdcSetup, Release(AD9680));
    OrderedPrecedes(t, DacSetup, Release(AD9144));
  }

  /**
   * The reset sequence: each control line is set to its quiescent level (clock sync low, DAC
   * reset low, DAC transmit disabled, ADC powered down) before the 5 ms wait and to the opposite
   * level after it, and no control line changes level after the clock chip is set up.
   */
  lemma GpioResetBeforeClocks(cfg: BringUpConfig, n: nat)
    requires ControlLine(n)
    ensures var t := MainTrace(cfg);
      && Delay(5) in t
      && GpioSet(n, QuiescentLevel(n)) in t && GpioSet(n, 1 - QuiescentLevel(n)) in t
      && Precedes(t, GpioLevel(n, QuiescentLevel(n)), Wait)
      && Precedes(t, Wait, GpioLevel(n, 1 - QuiescentLevel(n)))
      && Ad9523Setup(cfg.clock) in t
      && forall v :: Precedes(t, GpioLevel(n, v), ClockSetup)
  {
    var t := MainTrace(cfg);
    MainTraceOrdered(cfg);
    MainTraceMembers(cfg, n);
    OrderedLineLevels(t, n);
  }

  /**
   * The JESD204 start-up order: clock chip, ADC, DAC link layer, both transceivers, ADC link
   * layer, DAC. So the DAC link comes up link layer, physical layer, device, and the ADC link
   * device, physical layer, link layer, as the recommended sequences demand.
   */
  lemma StageOrder(cfg: BringUpConfig, s: Side)
    ensures var t := MainTrace(cfg);
      && Ad9523Setup(cfg.clock) in t && Ad9680Setup(cfg.adc) in t && JesdTxInit(cfg.txJesd) in t
      && XcvrInit(DacSide, cfg.dacXcvrInit) in t && XcvrInit(AdcSide, cfg.adcXcvrInit) in t
      && JesdRxInit(cfg.rxJesd) in t && Ad9144Setup(cfg.dac) in t
      && Precedes(t, ClockSetup, AdcSetup)
      && Precedes(t, AdcSetup, TxLinkInit)
      && Precedes(t, TxLinkInit, PhyInit(s))
      && Precedes(t, PhyInit(s), RxLinkInit)
      && Precedes(t, RxLinkInit, DacSetup)
  {
    var t := MainTrace(cfg);
    MainTraceOrdered(cfg);
    MainTraceMembers(cfg, GPIO_CLKD_SYNC);
    OrderedLinkStages(t, s);
  }

  /** Each control line is claimed before it is driven and released after it was last driven. */
  lemma GpioClaimedAndReleased(cfg: BringUpConfig, n: nat)
    requires ControlLine(n)
    ensures var t := MainTrace(cfg);
      && GpioGet(n) in t && GpioRemove(n) in t
      && (forall v :: Precedes(t, GpioAcquire(n), GpioLevel(n, v)) && Precedes(t, GpioLevel(n, v), GpioRelease(n)))
      && Precedes(t, GpioAcquire(n), GpioRelease(n))
  {
    MainTraceOrdered(cfg);
    MainTraceMembers(cfg, n);
    OrderedLineLifetime(MainTrace(cfg), n);
  }

  /** Each device is removed, after its setup. */
  lemma DevicesReleased(cfg: BringUpConfig)
    ensures var t := MainTrace(cfg);
      && Precedes(t, ClockSetup, Release(AD9523)) && DeviceRemove(AD9523) in t
      && Precedes(t, AdcSetup, Release(AD9680)) && DeviceRemove(AD9680) in t
      && Precedes(t, DacSetup, Release(AD9144)) && DeviceRemove(AD9144) in t
  {
    MainTraceOrdered(cfg);
    MainTraceMembers(cfg, GPIO_CLKD_SYNC);
    OrderedLinkStages(MainTrace(cfg), DacSide);
  }

  lemma PhyLayerOrder(cfg: BringUpConfig)
    ensures Precedes(PhyLayer(cfg), PhyInit(DacSide), PhyInit(AdcSide)) <==> DacXcvrFirst(cfg)
    ensures Precedes(PhyLayer(cfg), PhyInit(AdcSide), PhyInit(DacSide)) <==> !DacXcvrFirst(cfg)
  {
    var m := PhyLayer(cfg);
    if DacXcvrFirst(cfg) {
      assert StepOf(m[0]) == PhyInit(DacSide) && StepOf(m[1]) == PhyInit(AdcSide);
    } else {
      assert StepOf(m[0]) == PhyInit(AdcSide) && StepOf(m[1]) == PhyInit(DacSide);
    }
  }

  /** The DAC's transceiver is brought up before the ADC's if and only if it runs from the quad PLL. */
  lemma {:induction false} PhyOrder(cfg: BringUpConfig)
    ensures var t := MainTrace(cfg);
      && (Precedes(t, PhyInit(DacSide), PhyInit(AdcSide)) <==> DacXcvrFirst(cfg))
      && (Precedes(t, PhyInit(AdcSide), PhyInit(DacSide)) <==> !DacXcvrFirst(cfg))
  {
    var x, m, y := TraceBeforePhy(cfg), PhyLayer(cfg), TraceAfterPhy(cfg);
    PhyLayerFramed(cfg);
    PrecedesFramed(x, m, y, PhyInit(DacSide), PhyInit(AdcSide));
    PrecedesFramed(x, m, y, PhyInit(AdcSide), PhyInit(DacSide));
    PhyLayerOrder(cfg);
  }

  /**
   * As written, every selector and whatever the stack held lead to the DAC-transceiver-first
   * order: the DAC record's `cpll_enable` is the 0 `main` stores, since the preset never reaches it.
   */
  lemma DefaultsTakeDacFirst(mode: char, u: Uninitialised)
    ensures DacXcvrFirst(ConfigAsWritten(mode, u))
    ensures Precedes(MainTrace(ConfigAsWritten(mode, u)), PhyInit(DacSide), PhyInit(AdcSide))
  {
    PhyOrder(ConfigAsWritten(mode, u));
  }

  /** The transceiver init records do not depend on the selector, as written. */
  lemma XcvrInitIgnoresPreset(mode: char, mode': char, u: Uninitialised)
    ensures ConfigAsWritten(mode, u).dacXcvrInit == ConfigAsWritten(mode', u).dacXcvrInit
    ensures ConfigAsWritten(mode, u).adcXcvrInit == ConfigAsWritten(mode', u).adcXcvrInit
    ensures ConfigAsWritten(mode, u).dacXcvrInit.laneRateKhz == 10000000
    ensures ConfigAsWritten(mode, u).adcXcvrInit.laneRateKhz == 10000000
  {
  }
  // ---------------------------------------------------------------- defaults' properties

  /**
   * The DAC's lane crossbar is the identity, the preset does not touch it, and each row of the
   * short-pattern samples alternates the low and high halves of that channel's pattern word,
   * which join back to the word.
   */
  lemma DacDefaults(mode: char, u: Uninitialised)
    ensures var cfg := ConfigAsWritten(mode, u);
      && |cfg.dac.laneXbar| == LANE_XBAR_SIZE
      && (forall n :: 0 <= n < LANE_XBAR_SIZE ==> cfg.dac.laneXbar[n] == n)
      && |cfg.dac.stplSamples| == 2 == |cfg.dacChannels|
      && forall c, k :: 0 <= c < 2 && 0 <= k < 4 ==>
           |cfg.dac.stplSamples[c]| == 4
           && cfg.dac.stplSamples[c][k]
              == (if k % 2 == 0 then Low16(cfg.dacChannels[c].patData) else High16(cfg.dacChannels[c].patData))
    ensures var cfg := ConfigAsWritten(mode, u);
      forall c :: 0 <= c < 2 ==>
        cfg.dac.stplSamples[c][1] * 0x1_0000 + cfg.dac.stplSamples[c][0] == cfg.dacChannels[c].patData
    ensures var cfg := ConfigAsWritten(mode, u);
      && cfg.dac.stplSamples == [[0xa1a0, 0xb1b0, 0xa1a0, 0xb1b0], [0xc1c0, 0xd1d0, 0xc1c0, 0xd1d0]]
  {
  }

  // ---------------------------------------------------------------- rates

  /** The clock chip can divide every output: nonzero R2, M1 and dividers on all eight outputs. */
  predicate ClockUsable(p: Ad9523PlatformData)
  {
    && p.pll2R2Div > 0 && p.pll2VcoDiffM1 > 0 && |p.channels| == AD9523_CHANNELS
    && forall k :: 0 <= k < AD9523_CHANNELS ==> DividerOf(p, k) > 0
  }

  /** The DAC's sample rate in kHz: its own PLL's output when that is on, else its device clock. */
  function DacSampleKhz(cfg: BringUpConfig): nat
    requires ClockUsable(cfg.clock)
  {
    if cfg.dac.pllEnable == 1 then cfg.dac.pllDacFrequencyKhz else OutputKhz(cfg.clock, DAC_DEVICE_CLK)
  }

  /** The default VCO: 125 MHz times 4 * 6 + 0 is 3 GHz, whatever the selector. */
  lemma DefaultVco(mode: char)
    ensures ClockPreset(mode, DEFAULT_CLOCK).pll2R2Div == 1
    ensures Pll2VcoKhz(ClockPreset(mode, DEFAULT_CLOCK)) == 3000000
  {
    PresetKeepsVco(mode, DEFAULT_CLOCK);
  }

  /**
   * The rates a configuration gives the links, and the agreements a working link needs: each
   * converter's sample rate as the menu announced it, ten lane bits per sample and lane as the
   * 8b/10b framing of `jesd204_mode` 4 takes (the DAC's interpolation dividing its data rate),
   * each transceiver's lane rate equal to its converter's, and its reference equal to the FPGA
   * clock output of its side; in mode '5' the DAC PLL's reference is the DAC device clock.
   */
  predicate RatesMatchMenu(mode: char, cfg: BringUpConfig)
  {
    var menu := MenuRatesFor(mode);
    && ClockUsable(cfg.clock)
    && OutputKhz(cfg.clock, ADC_DEVICE_CLK) == menu.adcKhz
    && DacSampleKhz(cfg) == menu.dacKhz
    && cfg.adc.laneRateKbps == 10 * menu.adcKhz
    && cfg.dac.laneRateKbps * cfg.dac.interpolation == 10 * menu.dacKhz
    && cfg.dacXcvrInit.laneRateKhz == cfg.dac.laneRateKbps
    && cfg.adcXcvrInit.laneRateKhz == cfg.adc.laneRateKbps
    && cfg.dacXcvrInit.refRateKhz == OutputKhz(cfg.clock, DAC_FPGA_CLK)
    && cfg.adcXcvrInit.refRateKhz == OutputKhz(cfg.clock, ADC_FPGA_CLK)
    && (cfg.dac.pllEnable == 1 ==> cfg.dac.pllRefFrequencyKhz == OutputKhz(cfg.clock, DAC_DEVICE_CLK))
  }

  lemma CorrectedRatesMode4(u: Uninitialised)
    ensures RatesMatchMenu('4', ConfigCorrected('4', u))
  {
    var cfg := ConfigCorrected('4', u);
    DefaultVco('4');
    Mode4Values(DEFAULT_CLOCK, DefaultDac(u.dac), DEFAULT_ADC, DacXcvrInitAsWritten(u.dacXcvrInit),
                AdcXcvrInitAsWritten(u.adcXcvrInit).(cpllEnable := 0));
    assert DividersOf(cfg.clock, DAC_DEVICE_CLK) == SideDividers(1, 128, 2, 128);
    assert DividersOf(cfg.clock, ADC_DEVICE_CLK) == SideDividers(1, 128, 2, 128);
  }

  lemma CorrectedRatesMode3(u: Uninitialised)
    ensures RatesMatchMenu('3', ConfigCorrected('3', u))
  {
    var cfg := ConfigCorrected('3', u);
    DefaultVco('3');
    Mode3Values(DEFAULT_CLOCK, DefaultDac(u.dac), DEFAULT_ADC, DacXcvrInitAsWritten(u.dacXcvrInit),
                AdcXcvrInitAsWritten(u.adcXcvrInit).(cpllEnable := 0));
    assert DividersOf(cfg.clock, DAC_DEVICE_CLK) == SideDividers(2, 256, 4, 256);
    assert DividersOf(cfg.clock, ADC_DEVICE_CLK) == SideDividers(2, 256, 4, 256);
  }

  lemma CorrectedRatesMode2(u: Uninitialised)
    ensures RatesMatchMenu('2', ConfigCorrected('2', u))
  {
    var cfg := ConfigCorrected('2', u);
    DefaultVco('2');
    Mode2Values(DEFAULT_CLOCK, DefaultDac(u.dac), DEFAULT_ADC, DacXcvrInitAsWritten(u.dacXcvrInit),
                AdcXcvrInitAsWritten(u.adcXcvrInit).(cpllEnable := 0));
    assert DividersOf(cfg.clock, DAC_DEVICE_CLK) == SideDividers(1, 128, 2, 128);
    assert DividersOf(cfg.clock, ADC_DEVICE_CLK) == SideDividers(2, 256, 4, 256);
  }

  lemma CorrectedRatesMode5(u: Uninitialised)
    ensures RatesMatchMenu('5', ConfigCorrected('5', u))
  {
    var cfg := ConfigCorrected('5', u);
    DefaultVco('5');
    Mode5ChangesOnlyFiveFields(DEFAULT_CLOCK, DefaultDac(u.dac), DEFAULT_ADC, DacXcvrInitAsWritten(u.dacXcvrInit),
                               AdcXcvrInitAsWritten(u.adcXcvrInit).(cpllEnable := 0), true);
    assert DividersOf(cfg.clock, DAC_DEVICE_CLK) == SideDividers(10, 128, 2, 128);
    assert DividersOf(cfg.clock, ADC_DEVICE_CLK) == SideDividers(1, 128, 2, 128);
  }

  lemma CorrectedRatesDefault(mode: char, u: Uninitialised)
    requires mode !in {'2', '3', '4', '5'}
    ensures RatesMatchMenu(mode, ConfigCorrected(mode, u))
  {
    var cfg := ConfigCorrected(mode, u);
    DefaultVco(mode);
    DefaultModeSetsOnlyRefRates(mode, DEFAULT_CLOCK, DefaultDac(u.dac), DEFAULT_ADC, DacXcvrInitAsWritten(u.dacXcvrInit),
                                AdcXcvrInitAsWritten(u.adcXcvrInit).(cpllEnable := 0), true);
    assert DividersOf(cfg.clock, DAC_DEVICE_CLK) == SideDividers(1, 128, 2, 128);
    assert DividersOf(cfg.clock, ADC_DEVICE_CLK) == SideDividers(1, 128, 2, 128);
  }

  /**
   * With the preset applied to the transceiver init records, every selector gives the rates the
   * menu announces, and each transceiver's lane and reference rates agree with its converter and
   * with the clock chip.
   */
  lemma CorrectedRatesMatchMenu(mode: char, u: Uninitialised)
    ensures RatesMatchMenu(mode, ConfigCorrected(mode, u))
  {
    if mode == '4' {
      CorrectedRatesMode4(u);
    } else if mode == '3' {
      CorrectedRatesMode3(u);
    } else if mode == '2' {
      CorrectedRatesMode2(u);
    } else if mode == '5' {
      CorrectedRatesMode5(u);
    } else {
      CorrectedRatesDefault(mode, u);
    }
  }

  /**
   * As written, selecting '4' sets both converters to 6 Gbps lanes and the FPGA clocks to
   * 300 MHz, while the transceivers are still initialised for 10 Gbps lanes from a 500 MHz
   * reference.
   */
  lemma AsWrittenRatesMismatch(u: Uninitialised)
    ensures var cfg := ConfigAsWritten('4', u);
      && ClockUsable(cfg.clock)
      && cfg.dac.laneRateKbps == 6000000 && cfg.dacXcvrInit.laneRateKhz == 10000000
      && cfg.adc.laneRateKbps == 6000000 && cfg.adcXcvrInit.laneRateKhz == 10000000
      && OutputKhz(cfg.clock, ADC_FPGA_CLK) == 300000 && cfg.adcXcvrInit.refRateKhz == 500000
      && !RatesMatchMenu('4', cfg)
  {
    var cfg := ConfigAsWritten('4', u);
    DefaultVco('4');
    Mode4Values(DEFAULT_CLOCK, DefaultDac(u.dac), DEFAULT_ADC, u.dacXcvr, u.adcXcvr);
    assert DividersOf(cfg.clock, DAC_DEVICE_CLK) == SideDividers(1, 128, 2, 128);
    assert DividersOf(cfg.clock, ADC_DEVICE_CLK) == SideDividers(1, 128, 2, 128);
  }

  /**
   * As written, the ADC transceiver's `cpll_enable` is whatever the stack held: the two
   * assignments both go to the DAC's record.
   */
  lemma AdcCpllAsWritten(mode: char, u: Uninitialised)
    ensures ConfigAsWritten(mode, u).adcXcvrInit.cpllEnable == u.adcXcvrInit.cpllEnable
    ensures ConfigAsWritten(mode, u).dacXcvrInit.cpllEnable == 0
  {
  }

  /**
   * Corrected, the ADC transceiver's PLL choice no longer depends on the stack: the quad PLL
   * unless the selected mode's table says otherwise.
   */
  lemma AdcCpllCorrected(mode: char, u: Uninitialised, u': Uninitialised)
    ensures ConfigCorrected(mode, u).adcXcvrInit.cpllEnable == ConfigCorrected(mode, u').adcXcvrInit.cpllEnable
    ensures ConfigCorrected(mode, u).adcXcvrInit.cpllEnable == (if mode in {'2', '3', '4'} then 1 else 0)
    ensures ConfigCorrected(mode, u).dacXcvrInit.cpllEnable == (if mode in {'3', '4'} then 1 else 0)
  {
  }

  /**
   * Corrected, the transceivers come up ADC first exactly in the modes where both run from
   * their channel PLLs ('3' and '4'), and DAC first otherwise.
   */
  lemma CorrectedPhyOrder(mode: char, u: Uninitialised)
    ensures var t := MainTrace(ConfigCorrected(mode, u));
      && (Precedes(t, PhyInit(AdcSide), PhyInit(DacSide)) <==> mode in {'3', '4'})
      && (Precedes(t, PhyInit(DacSide), PhyInit(AdcSide)) <==> mode !in {'3', '4'})
  {
    PhyOrder(ConfigCorrected(mode, u));
    AdcCpllCorrected(mode, u, u);
  }

  // ---------------------------------------------------------------- main

  /**
   * The records `main` fills before it calls the preset, in the code's order: the clock chip's
   * platform data, the transceiver init records, the DAC's and the ADC's init records.
   */
  method FillDefaults(u: Uninitialised)
    returns (clock: Ad9523PlatformData, dac: Ad9144InitParam, adc: Ad9680InitParam,
             dacXcvrInit: XcvrParams, adcXcvrInit: XcvrParams)
    ensures clock == DEFAULT_CLOCK && dac == DefaultDac(u.dac) && adc == DEFAULT_ADC
    ensures dacXcvrInit == DacXcvrInitAsWritten(u.dacXcvrInit)
    ensures adcXcvrInit == AdcXcvrInitAsWritten(u.adcXcvrInit)
  {
    clock := DEFAULT_CLOCK;
    dacXcvrInit := u.dacXcvrInit.(refRateKhz := 500000);
    adcXcvrInit := u.adcXcvrInit.(refRateKhz := 500000);
    dacXcvrInit := dacXcvrInit.(cpllEnable := 0);
    dacXcvrInit := dacXcvrInit.(laneRateKhz := 10000000);

    dac := u.dac.(laneRateKbps := 10000000, spi3wire := 1, interpolation := 1, pllEnable := 0,
                  jesd204Subclass := 1, jesd204Scrambling := 1, jesd204Mode := 4);
    var xbar := new nat[LANE_XBAR_SIZE];
    for n := 0 to LANE_XBAR_SIZE
      invariant forall k :: 0 <= k < n ==> xbar[k] == k
    {
      xbar[n] := n;
    }
    assert xbar[..] == IdentityXbar();
    dac := dac.(laneXbar := xbar[..]);
    dac := dac.(stplSamples := [
      [Low16(0xb1b0a1a0), High16(0xb1b0a1a0), Low16(0xb1b0a1a0), High16(0xb1b0a1a0)],
      [Low16(0xd1d0c1c0), High16(0xd1d0c1c0), Low16(0xd1d0c1c0), High16(0xd1d0c1c0)]]);

    adc := Ad9680InitParam(10000000);
    // The second assignment is to the DAC's record again; the ADC's `cpll_enable` stays unset.
    dacXcvrInit := dacXcvrInit.(cpllEnable := 0);
    adcXcvrInit := adcXcvrInit.(laneRateKhz := adc.laneRateKbps);
  }

  /**
   * `main` under the Xilinx build: fill the defaults, let the preset edit them through the
   * pointers it is handed, then drive the bring-up, recording every driver call. It returns 0.
   * As written, the transceiver pointers handed to the preset designate two scratch `struct
   * adxcvr` records, not the init records `adxcvr_init` reads.
   */
  method MainAsWritten(mode: char, u: Uninitialised) returns (status: int, trace: seq<Event>)
    ensures status == 0
    ensures trace == MainTrace(ConfigAsWritten(mode, u))
  {
    trace := [Ad9523Init];
    var clock, dac, adc, dacXcvrInit, adcXcvrInit := FillDefaults(u);
    var dacCell := new Ref(dac);
    var dacXcvrCell := new Ref(u.dacXcvr);
    var adcCell := new Ref(adc);
    var adcXcvrCell := new Ref(u.adcXcvr);
    var clockCell := new Ref(clock);
    var _ := Reconfig(mode, true, dacCell, dacXcvrCell, adcCell, adcXcvrCell, clockCell);
    dac, adc, clock := dacCell.val, adcCell.val, clockCell.val;

    var cfg := BringUpConfig(clock, dac, adc, dacXcvrInit, adcXcvrInit, DEFAULT_JESD, DEFAULT_JESD,
                             2, 2, DEFAULT_DAC_CHANNELS);
    var events := RunBringUp(cfg);
    trace := trace + events;
    status := 0;
  }

  /**
   * `main` as evidently intended: the second `cpll_enable = 0` clears the ADC's transceiver
   * record, and the preset edits the transceiver init records themselves.
   */
  method MainCorrected(mode: char, u: Uninitialised) returns (status: int, trace: seq<Event>)
    ensures status == 0
    ensures trace == MainTrace(ConfigCorrected(mode, u))
  {
    trace := [Ad9523Init];
    var clock, dac, adc, dacXcvrInit, adcXcvrInit := FillDefaults(u);
    adcXcvrInit := adcXcvrInit.(cpllEnable := 0);
    var dacCell := new Ref(dac);
    var dacXcvrCell := new Ref(dacXcvrInit);
    var adcCell := new Ref(adc);
    var adcXcvrCell := new Ref(adcXcvrInit);
    var clockCell := new Ref(clock);
    var _ := Reconfig(mode, true, dacCell, dacXcvrCell, adcCell, adcXcvrCell, clockCell);
    dac, adc, clock := dacCell.val, adcCell.val, clockCell.val;
    dacXcvrInit, adcXcvrInit := dacXcvrCell.val, adcXcvrCell.val;

    var cfg := BringUpConfig(clock, dac, adc, dacXcvrInit, adcXcvrInit, DEFAULT_JESD, DEFAULT_JESD,
                             2, 2, DEFAULT_DAC_CHANNELS);
    var events := RunBringUp(cfg);
    trace := trace + events;
    status := 0;
  }

  /**
   * The bring-up proper, from claiming the control lines to releasing them: every driver call in
   * `main`'s order, with the records `cfg` as the calls receive them.
   */
  method RunBringUp(cfg: BringUpConfig) returns (trace: seq<Event>)
    ensures trace == BringUpTrace(cfg)
  {
    trace := ResetLines();
    var links := StartLinks(cfg);
    trace := trace + links;
    var tests := TestPaths(cfg);
    trace := trace + tests;
    var released := ReleaseAll();
    trace := trace + released;
  }

  /** Claim the four control lines, hold them at their quiescent levels for 5 ms, then drive them to their active levels. */
  method ResetLines() returns (trace: seq<Event>)
    ensures trace == ResetSequence()
  {
    trace := [GpioGet(GPIO_CLKD_SYNC), GpioGet(GPIO_DAC_RESET), GpioGet(GPIO_DAC_TXEN), GpioGet(GPIO_ADC_PD)];
    trace := trace + [GpioSet(GPIO_CLKD_SYNC, 0), GpioSet(GPIO_DAC_RESET, 0), GpioSet(GPIO_DAC_TXEN, 0), GpioSet(GPIO_ADC_PD, 1)];
    trace := trace + [Delay(5)];
    trace := trace + [GpioSet(GPIO_CLKD_SYNC, 1), GpioSet(GPIO_DAC_RESET, 1), GpioSet(GPIO_DAC_TXEN, 1), GpioSet(GPIO_ADC_PD, 0)];
  }

  /** Clocks, ADC, DAC link layer, the transceivers in the order the DAC's PLL choice dictates, ADC link layer, DAC. */
  method StartLinks(cfg: BringUpConfig) returns (trace: seq<Event>)
    ensures trace == LinkStartup(cfg)
  {
    trace := [Ad9523Setup(cfg.clock)];
    trace := trace + [Ad9680Setup(cfg.adc)];
    trace := trace + [JesdTxInit(cfg.txJesd)];
    if cfg.dacXcvrInit.cpllEnable == 0 {
      trace := trace + [XcvrInit(DacSide, cfg.dacXcvrInit), XcvrInit(AdcSide, cfg.adcXcvrInit)];
    } else {
      trace := trace + [XcvrInit(AdcSide, cfg.adcXcvrInit), XcvrInit(DacSide, cfg.dacXcvrInit)];
    }
    trace := trace + [JesdRxInit(cfg.rxJesd)];
    trace := trace + [Ad9144Setup(cfg.dac)];
  }

  /** Status reads, interface cores, then the DAC pattern and PRBS tests and the ADC test patterns. */
  method TestPaths(cfg: BringUpConfig) returns (trace: seq<Event>)
    ensures trace == PathTests(cfg)
  {
    trace := [JesdTxStatusRead, JesdRxStatusRead];
    trace := trace + [AdcCoreInit(cfg.adcCoreChannels), DacCoreInit(cfg.dacCoreChannels)];
    trace := trace + [Ad9144Status];
    var dacChannels := WithSel(cfg.dacChannels, SelSed);
    trace := trace + [DacDataSetup(dacChannels), ShortPatternTest(cfg.dac)];
    WithSelAgain(cfg.dacChannels, SelSed, SelPn23);
    dacChannels := WithSel(dacChannels, SelPn23);
    var dac := cfg.dac.(prbsType := Prbs7);
    trace := trace + [DacDataSetup(dacChannels), PrbsTest(dac)];
    WithSelAgain(cfg.dacChannels, SelPn23, SelPn31);
    dacChannels := WithSel(dacChannels, SelPn31);
    dac := dac.(prbsType := Prbs15);
    trace := trace + [DacDataSetup(dacChannels), PrbsTest(dac)];
    trace := trace + [Ad9680Test(TestPn9), Ad9680Test(TestPn23)];
    WithSelAgain(cfg.dacChannels, SelPn31, SelDds);
    dacChannels := WithSel(dacChannels, SelDds);
    trace := trace + [DacDataSetup(dacChannels), Ad9680Test(TestOff)];
  }

  /** Free the three devices, then the four control lines. */
  method ReleaseAll() returns (trace: seq<Event>)
    ensures trace == Teardown()
  {
    trace := [DeviceRemove(AD9144), DeviceRemove(AD9523), DeviceRemove(AD9680)];
    trace := trace + [GpioRemove(GPIO_CLKD_SYNC), GpioRemove(GPIO_DAC_RESET), GpioRemove(GPIO_DAC_TXEN), GpioRemove(GPIO_ADC_PD)];
  }
}
