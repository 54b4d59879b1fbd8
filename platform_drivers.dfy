/**
 * The generic platform layer: GPIO descriptors dispatched on a backend tag, multi-pin range I/O,
 * a 16-bit register write, an unsigned divide with remainder and a low-bit mask builder.
 *
 * The hardware is a map from 32-bit address to 32-bit word. A word that was never written reads
 * as zero. The backend the build compiles in (one of the platform macros, or none) is a constant
 * of the `Hal` object rather than a set of preprocessor conditionals.
 */
module PlatformDrivers {
  import opened Common

  type Addr = nat
  type Word = bv32
  type U64 = x: int | 0 <= x < 0x1_0000_0000_0000_0000

  /** The GPIO controllers a build can be compiled for (the `*_GPIO` type tags). */
  datatype Backend = ZynqPs7 | ZynqPsu | NiosII | MicroBlaze

  /** The base addresses of the GPIO blocks, one per backend. */
  datatype BaseAddrs = BaseAddrs(ps7Gpio: Addr, psuGpio: Addr, sysGpioOut: Addr, axiGpio: Addr)

  /**
   * A GPIO descriptor. `gpioType` is None when the build compiles in no backend, in which case
   * the allocating call leaves the tag unset.
   */
  datatype GpioDesc = GpioDesc(number: bv8, id: nat, gpioType: Option<Backend>)

  /** The lowest pin number that belongs to the addressable GPIO block. */
  const GPIO_BASE_PIN: bv8 := 32

  // ---------------------------------------------------------------------------------------------
  // Register layout of each backend
  // ---------------------------------------------------------------------------------------------

  /** The data register: the one a write drives and a read samples. */
  function DataReg(b: Backend, bases: BaseAddrs): Addr
  {
    match b
    case ZynqPs7 => bases.ps7Gpio + 0x004c
    case ZynqPsu => bases.psuGpio + 0x0050
    case NiosII => bases.sysGpioOut + 0x0
    case MicroBlaze => bases.axiGpio + 0x8
  }

  /** The direction register of the Zynq controllers (a set bit selects output). */
  function DirReg(b: Backend, bases: BaseAddrs): Addr
    requires b == ZynqPs7 || b == ZynqPsu
  {
    if b == ZynqPs7 then bases.ps7Gpio + 0x02c4 else bases.psuGpio + 0x0304
  }

  /** The output-enable register of the Zynq controllers. */
  function OenReg(b: Backend, bases: BaseAddrs): Addr
    requires b == ZynqPs7 || b == ZynqPsu
  {
    if b == ZynqPs7 then bases.ps7Gpio + 0x02c8 else bases.psuGpio + 0x0308
  }

  /** The tri-state register of the AXI GPIO used by MicroBlaze (a clear bit selects output). */
  function TriReg(bases: BaseAddrs): Addr
  {
    bases.axiGpio + 0xc
  }

  /** The registers other than the data register that a write may touch. */
  function ControlRegs(b: Backend, bases: BaseAddrs): set<Addr>
  {
    match b
    case ZynqPs7 => {DirReg(b, bases), OenReg(b, bases)}
    case ZynqPsu => {DirReg(b, bases), OenReg(b, bases)}
    case NiosII => {}
    case MicroBlaze => {TriReg(bases)}
  }

  lemma ControlRegsExcludeData(b: Backend, bases: BaseAddrs)
    ensures DataReg(b, bases) !in ControlRegs(b, bases)
  {
  }

  // ---------------------------------------------------------------------------------------------
  // Pure register semantics
  // ---------------------------------------------------------------------------------------------

  /** What `Xil_In32`/`IORD_32DIRECT` return: a word never written reads as zero. */
  function Read(regs: map<Addr, Word>, a: Addr): Word
  {
    if a in regs then regs[a] else 0
  }

  /** Bit `k` of `w`, as 0 or 1. */
  function Bit(w: Word, k: bv32): (r: Word)
    requires k < 32
    ensures r <= 1
  {
    (w >> k) & 1
  }

  /** `ppos`: the bit position of a pin number within the GPIO block. */
  function Pos(number: bv8): bv32
    requires number >= GPIO_BASE_PIN
  {
    (number - GPIO_BASE_PIN) as bv32
  }

  /** `0x1 << ppos`: the one-pin mask. */
  function PinMask(pos: bv32): Word
    requires pos < 32
  {
    1 << pos
  }

  /** `((1 << num_pins) - 1) << ppos`: the range mask. */
  function RangeMask(numPins: bv32, pos: bv32): Word
    requires numPins < 32 && pos < 32
  {
    ((1 << numPins) - 1) << pos
  }

  /** `pdata | pmask`. */
  function SetBits(w: Word, mask: Word): Word
  {
    w | mask
  }

  /** `pdata & ~pmask`. */
  function ClearBits(w: Word, mask: Word): Word
  {
    w & !mask
  }

  /** `(pdata >> ppos) & 0x1`: the level of one pin in a data word. */
  function Level(w: Word, pos: bv32): bv8
    requires pos < 32
  {
    ((w >> pos) & 1) as bv8
  }

  /** `(pdata & pmask) >> ppos`: the pins under a mask in a data word, shifted down. */
  function Field(w: Word, mask: Word, pos: bv32): Word
    requires pos < 32
  {
    (w & mask) >> pos
  }

  /** `value << ppos`: an 8-bit level or range value moved to its pin position. */
  function Shifted(v: bv8, pos: bv32): Word
    requires pos < 32
  {
    (v as Word) << pos
  }

  /** `(pdata & ~pmask) | bits`: the read-modify-write of the data register, as written. */
  function Merge(w: Word, mask: Word, bits: Word): Word
  {
    (w & !mask) | bits
  }

  /**
   * The direction part of a write: the Zynq controllers set the bits in the direction and the
   * output-enable registers, MicroBlaze clears them in the tri-state register, Nios II has none.
   */
  function OutputRegs(regs: map<Addr, Word>, b: Backend, bases: BaseAddrs, mask: Word): map<Addr, Word>
  {
    match b
    case ZynqPs7 | ZynqPsu =>
      var r1 := regs[DirReg(b, bases) := SetBits(Read(regs, DirReg(b, bases)), mask)];
      r1[OenReg(b, bases) := SetBits(Read(r1, OenReg(b, bases)), mask)]
    case NiosII => regs
    case MicroBlaze => regs[TriReg(bases) := ClearBits(Read(regs, TriReg(bases)), mask)]
  }

  /** The register map after a write of `bits` under `mask` on backend `b`. */
  function DriveRegs(regs: map<Addr, Word>, b: Backend, bases: BaseAddrs, mask: Word, bits: Word): map<Addr, Word>
  {
    var r := OutputRegs(regs, b, bases, mask);
    r[DataReg(b, bases) := Merge(Read(r, DataReg(b, bases)), mask, bits)]
  }

  /** The direction part of a read: the Zynq controllers clear the bits in the direction register. */
  function InputRegs(regs: map<Addr, Word>, b: Backend, bases: BaseAddrs, mask: Word): map<Addr, Word>
  {
    match b
    case ZynqPs7 | ZynqPsu => regs[DirReg(b, bases) := ClearBits(Read(regs, DirReg(b, bases)), mask)]
    case NiosII | MicroBlaze => regs
  }

  /** The register map after `gpio_set_value` of pin position `pos`. */
  function SetValueRegs(regs: map<Addr, Word>, b: Backend, bases: BaseAddrs, pos: bv32, value: bv8): map<Addr, Word>
    requires pos < 32
  {
    DriveRegs(regs, b, bases, PinMask(pos), Shifted(value, pos))
  }

  /** The level `gpio_get_value` reports for pin position `pos`. */
  function GetValueBit(regs: map<Addr, Word>, b: Backend, bases: BaseAddrs, pos: bv32): bv8
    requires pos < 32
  {
    Level(Read(regs, DataReg(b, bases)), pos)
  }

  /** The register map after `ad_gpio_set_range`. */
  function SetRangeRegs(regs: map<Addr, Word>, b: Backend, bases: BaseAddrs, numPins: bv32, pos: bv32, data: bv8): map<Addr, Word>
    requires numPins < 32 && pos < 32
  {
    DriveRegs(regs, b, bases, RangeMask(numPins, pos), Shifted(data, pos))
  }

  /** The value `ad_gpio_get_range` reports. */
  function GetRangeBits(regs: map<Addr, Word>, b: Backend, bases: BaseAddrs, numPins: bv32, pos: bv32): Word
    requires numPins < 32 && pos < 32
  {
    Field(Read(regs, DataReg(b, bases)), RangeMask(numPins, pos), pos)
  }

  /** The word `ad_reg_write_16` stores at `addr & ~3`. */
  function Reg16Word(old_: Word, addr: bv32, data: bv32): Word
  {
    if addr & 0x3 == 0 then (old_ & !0xffff) | data else (old_ & 0xffff) | (data << 16)
  }

  /** `addr & ~0x3`: the aligned word that holds byte address `addr`. */
  function WordAddr(addr: bv32): Addr
  {
    (addr & !0x3) as Addr
  }

  /** The register map after `ad_reg_write_16`. */
  function Reg16Regs(regs: map<Addr, Word>, addr: bv32, data: bv32): map<Addr, Word>
  {
    regs[WordAddr(addr) := Reg16Word(Read(regs, WordAddr(addr)), addr, data)]
  }

  /** The mask `ad_pow2` builds: `number` low bits set, and bit 0 alone for zero. */
  function LowMask(number: nat): Word
  {
    if number == 0 then 1 else if number < 32 then (1 << number) - 1 else 0xFFFF_FFFF
  }

  /** Shifting a one into the mask of `k` low bits gives the mask of `k + 1` low bits. */
  lemma LowMaskStep(k: nat)
    requires 1 <= k
    ensures LowMask(k + 1) == (LowMask(k) << 1) ^ 1
  {
    // One range of shift amounts at a time keeps each obligation small.
    if k < 8 {
      LowMaskStepBelow8(k);
    } else if k < 16 {
      LowMaskStepBelow16(k);
    } else if k < 24 {
      LowMaskStepBelow24(k);
    } else if k < 31 {
      LowMaskStepBelow31(k);
    }
  }

  lemma LowMaskStepBelow8(k: nat)
    requires 1 <= k < 8
    ensures LowMask(k + 1) == (LowMask(k) << 1) ^ 1
  {
  }

  lemma LowMaskStepBelow16(k: nat)
    requires 8 <= k < 16
    ensures LowMask(k + 1) == (LowMask(k) << 1) ^ 1
  {
  }

  lemma LowMaskStepBelow24(k: nat)
    requires 16 <= k < 24
    ensures LowMask(k + 1) == (LowMask(k) << 1) ^ 1
  {
  }

  lemma LowMaskStepBelow31(k: nat)
    requires 24 <= k < 31
    ensures LowMask(k + 1) == (LowMask(k) << 1) ^ 1
  {
  }

  // ---------------------------------------------------------------------------------------------
  // Properties of the register semantics
  // ---------------------------------------------------------------------------------------------

  /** The direction part of a write touches only the backend's control registers. */
  lemma OutputRegsFrame(regs: map<Addr, Word>, b: Backend, bases: BaseAddrs, mask: Word, a: Addr)
    requires a !in ControlRegs(b, bases)
    ensures Read(OutputRegs(regs, b, bases, mask), a) == Read(regs, a)
  {
  }

  /** A write changes the data register and the control registers, and no other word. */
  lemma DriveRegsFrame(regs: map<Addr, Word>, b: Backend, bases: BaseAddrs, mask: Word, bits: Word, a: Addr)
    requires a != DataReg(b, bases) && a !in ControlRegs(b, bases)
    ensures Read(DriveRegs(regs, b, bases, mask, bits), a) == Read(regs, a)
  {
    OutputRegsFrame(regs, b, bases, mask, a);
  }

  /** The data register after a write: masked bits come from `bits`, the others are kept. */
  lemma DriveRegsData(regs: map<Addr, Word>, b: Backend, bases: BaseAddrs, mask: Word, bits: Word)
    ensures Read(DriveRegs(regs, b, bases, mask, bits), DataReg(b, bases))
         == Merge(Read(regs, DataReg(b, bases)), mask, bits)
  {
    ControlRegsExcludeData(b, bases);
    OutputRegsFrame(regs, b, bases, mask, DataReg(b, bases));
  }

  /** What a write does to the direction registers of each backend. */
  lemma DriveRegsDirection(regs: map<Addr, Word>, b: Backend, bases: BaseAddrs, mask: Word, bits: Word)
    ensures b == ZynqPs7 || b == ZynqPsu ==>
      var r := DriveRegs(regs, b, bases, mask, bits);
      Read(r, DirReg(b, bases)) == SetBits(Read(regs, DirReg(b, bases)), mask) &&
      Read(r, OenReg(b, bases)) == SetBits(Read(regs, OenReg(b, bases)), mask)
    ensures b == MicroBlaze ==>
      Read(DriveRegs(regs, b, bases, mask, bits), TriReg(bases)) == ClearBits(Read(regs, TriReg(bases)), mask)
  {
    if b == ZynqPs7 || b == ZynqPsu {
      ZynqDriveDirection(regs, b, bases, mask, bits);
    }
  }

  lemma ZynqDriveDirection(regs: map<Addr, Word>, b: Backend, bases: BaseAddrs, mask: Word, bits: Word)
    requires b == ZynqPs7 || b == ZynqPsu
    ensures var r := DriveRegs(regs, b, bases, mask, bits);
      Read(r, DirReg(b, bases)) == SetBits(Read(regs, DirReg(b, bases)), mask) &&
      Read(r, OenReg(b, bases)) == SetBits(Read(regs, OenReg(b, bases)), mask)
  {
    var dir, oen, data := DirReg(b, bases), OenReg(b, bases), DataReg(b, bases);
    assert dir != oen && data != dir && data != oen;
    var r1 := regs[dir := SetBits(Read(regs, dir), mask)];
    var r2 := r1[oen := SetBits(Read(r1, oen), mask)];
    assert OutputRegs(regs, b, bases, mask) == r2;
    assert Read(r1, oen) == Read(regs, oen);
  }

  /** `gpio_set_value` with a level of 0 or 1 makes bit `pos` of the data register that level. */
  lemma SetValueSetsBit(regs: map<Addr, Word>, b: Backend, bases: BaseAddrs, pos: bv32, value: bv8)
    requires pos < 32 && value <= 1
    ensures Bit(Read(SetValueRegs(regs, b, bases, pos, value), DataReg(b, bases)), pos) == value as Word
  {
    DriveRegsData(regs, b, bases, PinMask(pos), Shifted(value, pos));
  }

  /** `gpio_set_value` with a level of 0 or 1 leaves every other bit of the data register alone. */
  lemma SetValueKeepsOtherBits(regs: map<Addr, Word>, b: Backend, bases: BaseAddrs, pos: bv32, value: bv8, k: bv32)
    requires pos < 32 && value <= 1 && k < 32 && k != pos
    ensures Bit(Read(SetValueRegs(regs, b, bases, pos, value), DataReg(b, bases)), k)
         == Bit(Read(regs, DataReg(b, bases)), k)
  {
    DriveRegsData(regs, b, bases, PinMask(pos), Shifted(value, pos));
  }

  /** Loopback: `gpio_get_value` after `gpio_set_value(v)` reports `v`. */
  lemma SetThenGetValue(regs: map<Addr, Word>, b: Backend, bases: BaseAddrs, pos: bv32, value: bv8)
    requires pos < 32 && value <= 1
    ensures GetValueBit(InputRegs(SetValueRegs(regs, b, bases, pos, value), b, bases, PinMask(pos)), b, bases, pos) == value
  {
    var r := SetValueRegs(regs, b, bases, pos, value);
    SetValueSetsBit(regs, b, bases, pos, value);
    ControlRegsExcludeData(b, bases);
    assert Read(InputRegs(r, b, bases, PinMask(pos)), DataReg(b, bases)) == Read(r, DataReg(b, bases));
  }

  /** The range mask covers exactly the bits `pos` up to `pos + numPins - 1`. */
  lemma RangeMaskBits(numPins: bv32, pos: bv32, k: bv32)
    requires numPins < 32 && pos < 32 && pos + numPins <= 32 && k < 32
    ensures Bit(RangeMask(numPins, pos), k) == 1 <==> pos <= k < pos + numPins
  {
  }

  /** A range write of data that fits in `numPins` bits changes only the masked bits. */
  lemma SetRangeOnlyMasked(regs: map<Addr, Word>, b: Backend, bases: BaseAddrs, numPins: bv32, pos: bv32, data: bv8, k: bv32)
    requires numPins < 32 && pos < 32 && pos + numPins <= 32 && k < 32
    requires (data as Word) < (1 << numPins)
    requires !(pos <= k < pos + numPins)
    ensures Bit(Read(SetRangeRegs(regs, b, bases, numPins, pos, data), DataReg(b, bases)), k)
         == Bit(Read(regs, DataReg(b, bases)), k)
  {
    DriveRegsData(regs, b, bases, RangeMask(numPins, pos), Shifted(data, pos));
  }

  /**
   * The data of a range write is shifted but not masked: a one-pin write of 3 at position 0 also
   * sets bit 1, outside the range. So SetRangeOnlyMasked needs the data to fit in `numPins` bits.
   */
  lemma RangeDataBeyondWidthSpills(regs: map<Addr, Word>, b: Backend, bases: BaseAddrs)
    ensures Bit(Read(SetRangeRegs(regs, b, bases, 1, 0, 3), DataReg(b, bases)), 1) == 1
    ensures Bit(RangeMask(1, 0), 1) == 0
  {
    DriveRegsData(regs, b, bases, RangeMask(1, 0), Shifted(3, 0));
  }

  /**
   * Round trip: a range read after a range write reports the written data cut to `numPins` bits,
   * so data that fits in `numPins` bits comes back unchanged.
   */
  lemma SetThenGetRange(regs: map<Addr, Word>, b: Backend, bases: BaseAddrs, numPins: bv32, pos: bv32, data: bv8)
    requires numPins < 32 && pos < 32 && pos + numPins <= 32
    ensures GetRangeBits(InputRegs(SetRangeRegs(regs, b, bases, numPins, pos, data), b, bases, RangeMask(numPins, pos)), b, bases, numPins, pos)
         == (data as Word) & ((1 << numPins) - 1)
    ensures (data as Word) < (1 << numPins) ==>
      GetRangeBits(InputRegs(SetRangeRegs(regs, b, bases, numPins, pos, data), b, bases, RangeMask(numPins, pos)), b, bases, numPins, pos)
         == data as Word
  {
    RangeReadOfWrite(regs, b, bases, numPins, pos, data);
    FieldOfMerge(Read(regs, DataReg(b, bases)), numPins, pos, data);
    FittingDataKeepsLowBits(numPins, data);
  }

  /** A range read after a range write sees the merged data word, whatever the backend. */
  lemma RangeReadOfWrite(regs: map<Addr, Word>, b: Backend, bases: BaseAddrs, numPins: bv32, pos: bv32, data: bv8)
    requires numPins < 32 && pos < 32
    ensures GetRangeBits(InputRegs(SetRangeRegs(regs, b, bases, numPins, pos, data), b, bases, RangeMask(numPins, pos)), b, bases, numPins, pos)
         == Field(Merge(Read(regs, DataReg(b, bases)), RangeMask(numPins, pos), Shifted(data, pos)), RangeMask(numPins, pos), pos)
  {
    var mask := RangeMask(numPins, pos);
    var r := SetRangeRegs(regs, b, bases, numPins, pos, data);
    DriveRegsData(regs, b, bases, mask, Shifted(data, pos));
    ControlRegsExcludeData(b, bases);
    assert Read(InputRegs(r, b, bases, mask), DataReg(b, bases)) == Read(r, DataReg(b, bases));
  }

  /** Data that fits in `numPins` bits is its own low `numPins` bits. */
  lemma FittingDataKeepsLowBits(numPins: bv32, data: bv8)
    requires numPins < 32
    ensures (data as Word) < (1 << numPins) ==> (data as Word) & ((1 << numPins) - 1) == data as Word
  {
  }

  /** The word-level fact behind the range round trip: the field read back is the data's low `numPins` bits. */
  lemma FieldOfMerge(w: Word, numPins: bv32, pos: bv32, data: bv8)
    requires numPins < 32 && pos < 32 && pos + numPins <= 32
    ensures Field(Merge(w, RangeMask(numPins, pos), Shifted(data, pos)), RangeMask(numPins, pos), pos)
         == (data as Word) & ((1 << numPins) - 1)
  {
  }

  /** A one-pin range is the single-pin operation. */
  lemma OnePinRangeIsPin(pos: bv32)
    requires pos < 32
    ensures RangeMask(1, pos) == PinMask(pos)
  {
  }

  /** The range mask at position zero is the mask `ad_pow2` builds, for one pin or more. */
  lemma RangeMaskIsLowMask(numPins: bv32)
    requires 1 <= numPins < 32
    ensures RangeMask(numPins, 0) == LowMask(numPins as nat)
  {
  }

  /** An aligned 16-bit write replaces the low half and keeps the high half. */
  lemma Reg16Aligned(w: Word, addr: bv32, data: bv32)
    requires addr & 0x3 == 0 && data < 0x1_0000
    ensures Reg16Word(w, addr, data) & 0xffff == data
    ensures Reg16Word(w, addr, data) >> 16 == w >> 16
  {
  }

  /** An unaligned 16-bit write replaces the high half and keeps the low half. */
  lemma Reg16Unaligned(w: Word, addr: bv32, data: bv32)
    requires addr & 0x3 != 0 && data < 0x1_0000
    ensures Reg16Word(w, addr, data) >> 16 == data
    ensures Reg16Word(w, addr, data) & 0xffff == w & 0xffff
  {
  }

  /** A 16-bit write touches the one aligned word that contains `addr`. */
  lemma Reg16Frame(regs: map<Addr, Word>, addr: bv32, data: bv32, a: Addr)
    requires a != WordAddr(addr)
    ensures Read(Reg16Regs(regs, addr, data), a) == Read(regs, a)
  {
  }

  // ---------------------------------------------------------------------------------------------
  // The platform object
  // ---------------------------------------------------------------------------------------------

  /** The register space and the build configuration of one platform. */
  class Hal {
    /** The backend the build compiles in (`ZYNQ_PS7`, `ZYNQ_PSU`, `NIOS_II`, `MICROBLAZE`), if any. */
    const build: Option<Backend>
    const bases: BaseAddrs
    var regs: map<Addr, Word>

    constructor (build: Option<Backend>, bases: BaseAddrs, regs: map<Addr, Word>)
      ensures this.build == build && this.bases == bases && this.regs == regs
    {
      this.build := build;
      this.bases := bases;
      this.regs := regs;
    }

    /** `Xil_In32` / `IORD_32DIRECT` / `ad_reg_read`. */
    method In32(a: Addr) returns (w: Word)
      ensures w == Read(regs, a)
    {
      w := Read(regs, a);
    }

    /** `Xil_Out32` / `IOWR_32DIRECT` / `ad_reg_write`. */
    method Out32(a: Addr, w: Word)
      modifies this
      ensures regs == old(regs)[a := w]
    {
      regs := regs[a := w];
    }

    /** True when the descriptor's tag names the backend this build dispatches to. */
    predicate Dispatches(desc: GpioDesc)
    {
      build.Some? && desc.gpioType == build
    }

    /**
     * `gpio_get`: a pin below the GPIO block fails before allocating; otherwise a descriptor
     * tagged with the build's backend, id 0, unless the allocation (`allocOk`) fails.
     */
    method GpioGet(gpioNumber: bv8, allocOk: bool) returns (status: int, desc: Option<GpioDesc>)
      ensures status == SUCCESS <==> desc.Some?
      ensures status == SUCCESS || status == FAILURE
      ensures gpioNumber < GPIO_BASE_PIN ==> status == FAILURE
      ensures desc.Some? <==> gpioNumber >= GPIO_BASE_PIN && allocOk
      ensures desc.Some? ==> desc.value == GpioDesc(gpioNumber, 0, build)
    {
      if gpioNumber < 32 {
        return FAILURE, None;
      }
      if !allocOk {
        return FAILURE, None;
      }
      var dev := GpioDesc(gpioNumber, 0, build);
      return SUCCESS, Some(dev);
    }

    /** `gpio_remove`: releases the descriptor and always succeeds. */
    method GpioRemove(desc: GpioDesc) returns (status: int)
      ensures status == SUCCESS
    {
      status := SUCCESS;
    }

    /** `gpio_direction_input`: a stub with no effect that returns 0. */
    method GpioDirectionInput(desc: GpioDesc) returns (status: int)
      ensures status == 0
    {
      status := 0;
    }

    /** `gpio_direction_output`: a stub with no effect that returns 0. */
    method GpioDirectionOutput(desc: GpioDesc, value: bv8) returns (status: int)
      ensures status == 0
    {
      status := 0;
    }

    /** `gpio_get_direction`: a stub with no effect that returns 0 and writes no direction. */
    method GpioGetDirection(desc: GpioDesc) returns (status: int)
      ensures status == 0
    {
      status := 0;
    }

    /** The direction and output-enable writes of `gpio_set_value` and `ad_gpio_set_range`. */
    method PrepareOutput(b: Backend, mask: Word)
      modifies this
      ensures regs == OutputRegs(old(regs), b, bases, mask)
    {
      match b
      case ZynqPs7 | ZynqPsu =>
        var pdata := In32(DirReg(b, bases));
        Out32(DirReg(b, bases), SetBits(pdata, mask));
        pdata := In32(OenReg(b, bases));
        Out32(OenReg(b, bases), SetBits(pdata, mask));
      case NiosII =>
      case MicroBlaze =>
        var pdata := In32(TriReg(bases));
        Out32(TriReg(bases), ClearBits(pdata, mask));
    }

    /** The direction write of `gpio_get_value` and `ad_gpio_get_range`. */
    method PrepareInput(b: Backend, mask: Word)
      modifies this
      ensures regs == InputRegs(old(regs), b, bases, mask)
    {
      match b
      case ZynqPs7 | ZynqPsu =>
        var pdata := In32(DirReg(b, bases));
        Out32(DirReg(b, bases), ClearBits(pdata, mask));
      case NiosII | MicroBlaze =>
    }

    /** Drives `bits` under `mask` on backend `b`: direction first, then the data register. */
    method Drive(b: Backend, mask: Word, bits: Word)
      modifies this
      ensures regs == DriveRegs(old(regs), b, bases, mask, bits)
    {
      PrepareOutput(b, mask);
      var pdata := In32(DataReg(b, bases));
      Out32(DataReg(b, bases), Merge(pdata, mask, bits));
    }

    /**
     * `gpio_set_value`. The pin must lie in the 32-pin block (the shift `0x1 << ppos` is undefined
     * otherwise). A descriptor whose tag is not the compiled backend fails with -1 and touches nothing.
     */
    method GpioSetValue(desc: GpioDesc, value: bv8) returns (status: int)
      requires GPIO_BASE_PIN <= desc.number < GPIO_BASE_PIN + 32
      modifies this
      ensures Dispatches(desc) ==>
        status == SUCCESS && regs == SetValueRegs(old(regs), build.value, bases, Pos(desc.number), value)
      ensures !Dispatches(desc) ==> status == -1 && regs == old(regs)
    {
      status := -1;
      var ppos := Pos(desc.number);
      var pmask := PinMask(ppos);
      if Dispatches(desc) {
        Drive(build.value, pmask, Shifted(value, ppos));
        status := 0;
      }
    }

    /**
     * `gpio_get_value`: the level of the pin in the data register `gpio_set_value` writes; on the
     * Zynq controllers it first turns the pin into an input. `value` is None when `*value` is not written.
     */
    method GpioGetValue(desc: GpioDesc) returns (status: int, value: Option<bv8>)
      requires GPIO_BASE_PIN <= desc.number < GPIO_BASE_PIN + 32
      modifies this
      ensures Dispatches(desc) ==>
        && status == SUCCESS
        && regs == InputRegs(old(regs), build.value, bases, PinMask(Pos(desc.number)))
        && value == Some(GetValueBit(regs, build.value, bases, Pos(desc.number)))
      ensures !Dispatches(desc) ==> status == -1 && value == None && regs == old(regs)
    {
      status, value := -1, None;
      var ppos := Pos(desc.number);
      if Dispatches(desc) {
        var b := build.value;
        PrepareInput(b, PinMask(ppos));
        var pdata := In32(DataReg(b, bases));
        value := Some(Level(pdata, ppos));
        status := 0;
      }
    }

    /**
     * `ad_gpio_set_range`: fails with -1 before any register access when `startPin` is below the
     * block, and with -1 and no access when no backend is compiled in.
     */
    method GpioSetRange(startPin: bv8, numPins: bv8, data: bv8) returns (status: int)
      requires startPin >= GPIO_BASE_PIN ==> startPin - GPIO_BASE_PIN < 32 && numPins < 32
      modifies this
      ensures startPin < GPIO_BASE_PIN || build.None? ==> status == -1 && regs == old(regs)
      ensures startPin >= GPIO_BASE_PIN && build.Some? ==>
        && status == SUCCESS
        && regs == SetRangeRegs(old(regs), build.value, bases, numPins as bv32, Pos(startPin), data)
    {
      if startPin < 32 {
        return -1;
      }
      status := -1;
      var ppos := Pos(startPin);
      var pmask := RangeMask(numPins as bv32, ppos);
      if build.Some? {
        Drive(build.value, pmask, Shifted(data, ppos));
        status := 0;
      }
    }

    /** `ad_gpio_get_range`: the masked bits of the data register, shifted down. */
    method GpioGetRange(startPin: bv8, numPins: bv8) returns (status: int, data: Option<Word>)
      requires startPin >= GPIO_BASE_PIN ==> startPin - GPIO_BASE_PIN < 32 && numPins < 32
      modifies this
      ensures startPin < GPIO_BASE_PIN || build.None? ==> status == -1 && data == None && regs == old(regs)
      ensures startPin >= GPIO_BASE_PIN && build.Some? ==>
        && status == SUCCESS
        && regs == InputRegs(old(regs), build.value, bases, RangeMask(numPins as bv32, Pos(startPin)))
        && data == Some(GetRangeBits(regs, build.value, bases, numPins as bv32, Pos(startPin)))
    {
      if startPin < 32 {
        return -1, None;
      }
      status, data := -1, None;
      var ppos := Pos(startPin);
      var pmask := RangeMask(numPins as bv32, ppos);
      if build.Some? {
        var b := build.value;
        PrepareInput(b, pmask);
        var pdata := In32(DataReg(b, bases));
        data := Some(Field(pdata, pmask, ppos));
        status := 0;
      }
    }

    /** `ad_reg_write_16`: a read-modify-write of the aligned word that holds `addr`. */
    method RegWrite16(addr: bv32, data: bv32)
      modifies this
      ensures regs == Reg16Regs(old(regs), addr, data)
    {
      var mData := In32(WordAddr(addr));
      mData := Reg16Word(mData, addr, data);
      Out32(WordAddr(addr), mData);
    }
  }

  /** Loopback through the platform object: set a pin, read it back; both calls succeed. */
  method SetThenGetLoopback(hal: Hal, desc: GpioDesc, level: bv8) returns (setStatus: int, getStatus: int, read: Option<bv8>)
    requires GPIO_BASE_PIN <= desc.number < GPIO_BASE_PIN + 32 && level <= 1
    requires hal.Dispatches(desc)
    modifies hal
    ensures setStatus == SUCCESS && getStatus == SUCCESS
    ensures read == Some(level)
  {
    setStatus := hal.GpioSetValue(desc, level);
    getStatus, read := hal.GpioGetValue(desc);
    SetThenGetValue(old(hal.regs), hal.build.value, hal.bases, Pos(desc.number), level);
  }

  // ---------------------------------------------------------------------------------------------
  // Arithmetic helpers
  // ---------------------------------------------------------------------------------------------

  /**
   * `do_div`: divides `*n` by `base` in place and returns the remainder. The caller must not
   * pass a zero base (the C division is undefined there).
   */
  method DoDiv(n: U64, base: U64) returns (quotient: U64, remainder: U64)
    requires base != 0
    ensures n == quotient * base + remainder
    ensures remainder < base
  {
    remainder := n % base;
    quotient := n / base;
  }

  /** `ad_pow2`: start from 1 and shift a one in for every index from 1 below `number`. */
  method AdPow2(number: bv32) returns (mask: Word)
    ensures mask == LowMask(number as nat)
  {
    // The C counter is a uint32 that never exceeds `number`, so it cannot wrap.
    var n := number as nat;
    var index: nat := 1;
    mask := 1;
    while index < n
      invariant 1 <= index && (index <= n || index == 1)
      invariant mask == LowMask(index)
    {
      LowMaskStep(index);
      mask := (mask << 1) ^ 1;
      index := index + 1;
    }
  }
}
